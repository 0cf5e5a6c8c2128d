/** The report: one pass over the settled runs and one over the upstream costs. */
module UsageReport {
  import opened Decimal
  import opened Names
  import opened Sums
  import opened UsageCosts
  import opened UsageGroups
  import opened UsageRows
  import opened UsageSeries
  import opened Wrappers

  class Aggregation {
    const filter: Filter
    var buckets: Buckets
    var series: SeriesTable

    ghost predicate Valid(rows: seq<Row>, entries: seq<Entry>)
      reads this
    {
      Consistent(filter, buckets, rows, entries) && Charted(filter, series, rows)
    }

    constructor (filter: Filter)
      ensures this.filter == filter && Valid([], []) && buckets == map[]
    {
      this.filter := filter;
      buckets, series := map[], map[];
      new;
      NothingYet(filter);
    }

    /** Adds a row to the series of its model and unit. */
    method AddPublicSeriesValue(row: Row, ghost rows: seq<Row>) returns (ok: bool)
      requires filter.bucket > 0 && Charted(filter, series, rows)
      requires Matches(filter, row) && Readable(row.total) && Worth(row.total) >= 0
      modifies this`series
      ensures ok <==> SeriesAccepts(filter, rows, row)
      ensures ok ==> Charted(filter, series, rows + [row])
    {
      hide Charted, Readable, Worth, Matches, Sum, BucketIndex, BucketCount;
      if row.settledAt.None? {
        return false;
      }
      var index, count := BucketIndex(filter, row.settledAt.value), BucketCount(filter);
      if index < 0 || index >= count {
        ChartedSame(filter, series, rows, row);
        return true;
      }
      assert SlotIs(filter, row, index);
      var key := KeyOf(row);
      var item := SeriesAt(PointCount(filter), series, key);
      PointFits(filter, series, rows, key, index);
      AddExact(item.total, Worth(row.total));
      var total := Add(item.total, Worth(row.total));
      if total.Err? {
        return false;
      }
      AddExact(item.points[index], Worth(row.total));
      var point := Add(item.points[index], Worth(row.total));
      if point.Err? {
        return false;
      }
      ChartedRow(filter, series, rows, row, index);
      series := series[key := Series(total.value, item.points[index := point.value])];
      ok := true;
    }

    /** Adds a settled run to its group, its model and its series; false means the report fails. */
    method AddPublicRow(row: Row, ghost rows: seq<Row>, ghost entries: seq<Entry>) returns (ok: bool)
      requires Valid(rows, entries) && NewRun(rows, row) && Worth(row.total) >= 0
      modifies this`buckets, this`series
      ensures ok <==> Accepts(filter, rows, row)
      ensures ok ==> Valid(rows + [row], entries)
      ensures ok ==> buckets == if Matches(filter, row) then Posted(filter, old(buckets), row) else old(buckets)
    {
      hide Consistent, Charted, Readable, Worth, Sum, SeriesAccepts, At;
      hide AddReportDecimal, NewRun, Posted, BucketAt, ModelAt;
      var provider := ProviderOf(filter, row.deployment);
      if !RunMatches(filter, row.client, provider) {
        ConsistentRow(filter, buckets, rows, entries, row);
        ChartedSame(filter, series, rows, row);
        return true;
      }
      var group := GroupId(filter, row.client, provider);
      var bucket := BucketAt(buckets, group);
      var model := ModelAt(bucket, row.deployment, provider);
      PublicRoom(filter, buckets, rows, entries, row);
      AddReportDecimalMeans(bucket.figures.public, row.currency, row.total);
      AddReportDecimalMeans(model.figures.public, row.currency, row.total);
      var public := AddReportDecimal(bucket.figures.public, row.currency, row.total);
      if public.Err? {
        return false;
      }
      var modelPublic := AddReportDecimal(model.figures.public, row.currency, row.total);
      if modelPublic.Err? {
        return false;
      }
      ConsistentRow(filter, buckets, rows, entries, row);
      var figures := Figures(bucket.figures.runs + {row.run}, Wrap64(bucket.figures.input + row.input),
                             Wrap64(bucket.figures.output + row.output), public.value, bucket.figures.actual);
      var modelFigures := Figures(model.figures.runs + {row.run}, Wrap64(model.figures.input + row.input),
                                  Wrap64(model.figures.output + row.output), modelPublic.value, model.figures.actual);
      PostedFromParts(filter, buckets, row, bucket, model, figures, modelFigures);
      var models := bucket.models[row.deployment := Model(model.provider, modelFigures)];
      buckets := buckets[group := Bucket(figures, models)];
      if filter.bucket > 0 {
        ok := AddPublicSeriesValue(row, rows);
      } else {
        NoSeriesAccepts(filter, rows, row);
        ChartedSame(filter, series, rows, row);
        ok := true;
      }
    }

    /** Adds the costs of one upstream answer; what cannot be read or added is skipped. */
    method AddCostRow(row: CostRow, ghost rows: seq<Row>, ghost entries: seq<Entry>, ghost parts: set<Part>)
      requires Valid(rows, entries) && CostsNotNegative(EntriesOf(row)) && PartsAre(buckets, parts)
      modifies this`buckets
      ensures Valid(rows, entries + EntriesOf(row))
      ensures var part := Part(GroupId(filter, row.client, row.provider), row.deployment);
              PartsAre(buckets, if RunMatches(filter, row.client, row.provider) then parts + {part} else parts)
    {
      hide PartsAre, Charted, Worth, AddReportDecimal, Tallied, GrandTotals, AllSound, CostsTallied;
      ghost var all := EntriesOf(row);
      if !RunMatches(filter, row.client, row.provider) {
        CostsOutside(filter, buckets, entries, all);
        return;
      }
      var group := GroupId(filter, row.client, row.provider);
      ConsistentOpened(filter, buckets, rows, entries, group, row.deployment, row.provider);
      OpenedParts(buckets, group, row.deployment, row.provider, parts);
      buckets := Opened(buckets, group, row.deployment, row.provider);
      ghost var now := parts + {Part(group, row.deployment)};
      hide Consistent, WithCost, RunMatches, Opened;
      if row.records.None? {
        assert entries + all == entries;
        return;
      }
      var records := row.records.value;
      assert entries + all[..0] == entries;
      for i := 0 to |records|
        invariant Consistent(filter, buckets, rows, entries + all[..i])
        invariant group in buckets && row.deployment in buckets[group].models && PartsAre(buckets, now)
      {
        ghost var e := all[i];
        WithCostParts(buckets, group, row.deployment, CostKeyOf(e), e.total, now);
        assert entries + all[..i + 1] == entries + all[..i] + [e];
        ConsistentCost(filter, buckets, rows, entries + all[..i], e);
        WithCostKeeps(buckets, group, row.deployment, CostKeyOf(e), e.total);
        var key := CostKey(row.provider, records[i].unit, records[i].source);
        buckets := WithCost(buckets, group, row.deployment, key, records[i].total);
      }
      assert all[..|records|] == all;
    }
  }

  lemma PostedFromParts(f: Filter, buckets: Buckets, row: Row, bucket: Bucket, model: Model, figures: Figures,
                        modelFigures: Figures)
    requires bucket == BucketAt(buckets, GroupOf(f, row))
    requires model == ModelAt(bucket, row.deployment, ProviderOf(f, row.deployment))
    requires figures == Entered(bucket.figures, row) && modelFigures == Entered(model.figures, row)
    ensures var models := bucket.models[row.deployment := Model(model.provider, modelFigures)];
            Posted(f, buckets, row) == buckets[GroupOf(f, row) := Bucket(figures, models)]
  {
    hide Entered;
  }

  lemma NoSeriesAccepts(f: Filter, rows: seq<Row>, row: Row)
    requires f.bucket <= 0
    ensures SeriesAccepts(f, rows, row)
  {
  }

  lemma WithCostKeeps(buckets: Buckets, group: Name, deployment: Name, key: CostKey, total: string)
    requires group in buckets && deployment in buckets[group].models
    ensures group in WithCost(buckets, group, deployment, key, total)
    ensures deployment in WithCost(buckets, group, deployment, key, total)[group].models
  {
    hide AddReportDecimal;
  }

  lemma PublicRoom(f: Filter, buckets: Buckets, rows: seq<Row>, entries: seq<Entry>, row: Row)
    requires Consistent(f, buckets, rows, entries)
    ensures var bucket := BucketAt(buckets, GroupOf(f, row));
            var model := ModelAt(bucket, row.deployment, ProviderOf(f, row.deployment));
            && 0 <= At(model.figures.public, row.currency) <= At(bucket.figures.public, row.currency) <= MAX_INT64
            && At(bucket.figures.public, row.currency) == Sum(f, rows, Group(GroupOf(f, row)), Public(row.currency))
  {
    hide GrandTotals, CostsTallied, Sum;
    GroupAmount(f, buckets, rows, row);
    hide Tallied;
    NothingSound();
    ModelBelowGroup(BucketAt(buckets, GroupOf(f, row)), row.deployment, ProviderOf(f, row.deployment));
  }

  lemma NothingYet(f: Filter)
    ensures Consistent(f, map[], [], []) && Charted(f, map[], [])
  {
    hide PointCount;
    forall scope: Scope | scope.Group? || scope.ModelOf?
      ensures Tally(f, FiguresAt(map[], scope), [], scope)
    {
      assert FiguresAt(map[], scope) == NOTHING;
      assert Ids(f, [], scope, RunOf) == {} && Ids(f, [], scope, CurrencyOf) == {};
    }
    forall c
      ensures Total(GroupValues(map[], Public(c))) == 0
    {
      assert GroupValues(map[], Public(c)) == map[];
    }
    forall u
      ensures Total(UnitTotals(map[], u)) == 0
    {
      assert UnitTotals(map[], u) == map[];
    }
    if f.bucket > 0 {
      ZerosSum(PointCount(f));
    }
  }

  lemma {:induction false} ZerosSum(n: nat)
    ensures ListSum(seq(n, _ => 0)) == 0
  {
    if n > 0 {
      assert seq(n, _ => 0)[..n - 1] == seq(n - 1, _ => 0);
      ZerosSum(n - 1);
    }
  }

  // ------------------------------------------------ the report

  /** A request for a report. The instants are None when they are zero; `now` stands in for a missing end. */
  datatype Query = Query(groupBy: string, client: Name, provider: Name, providerByDeployment: map<Name, Name>,
                         since: Option<int>, until: Option<int>, bucket: int, publicOnly: bool)

  function Checked(q: Query, now: int): (f: Option<Filter>)
    ensures f.Some? ==> f.value.Valid()
  {
    if q.groupBy != "provider" && q.groupBy != "client" then None
    else
      var until := if q.until.None? then now else q.until.value;
      if q.since.None? || q.since.value >= until then None
      else if q.bucket > 0 && (q.groupBy != "client" || q.bucket > SaturatedSub(until, q.since.value)) then None
      else Some(Filter(q.groupBy == "client", q.client, q.provider, q.providerByDeployment,
                       q.since.value, until, q.bucket))
  }

  /** Which queries are in order, and the window they ask for. */
  lemma CheckedExactly(q: Query, now: int)
    ensures var until := if q.until.Some? then q.until.value else now;
            && (Checked(q, now).Some? <==>
                  && q.groupBy in {"provider", "client"} && q.since.Some? && q.since.value < until
                  && (q.bucket > 0 ==> q.groupBy == "client" && q.bucket <= until - q.since.value
                                       && q.bucket <= MAX_INT64))
            && (Checked(q, now).Some? ==>
                  var f := Checked(q, now).value;
                  && f.byClient == (q.groupBy == "client") && f.client == q.client && f.provider == q.provider
                  && f.providerByDeployment == q.providerByDeployment
                  && f.since == q.since.value && f.until == until && f.bucket == q.bucket)
  {
  }

  datatype UsageReportResult = UsageReportResult(groups: Buckets, series: SeriesTable)

  ghost function AllEntries(costRows: seq<CostRow>): seq<Entry> {
    if costRows == [] then [] else AllEntries(costRows[..|costRows| - 1]) + EntriesOf(costRows[|costRows| - 1])
  }

  /** What the tables hold: run ids are unique, and no charge and no cost is negative. */
  ghost predicate Stored(rows: seq<Row>, costRows: seq<CostRow>) {
    && (forall i, j :: 0 <= i < j < |rows| ==> rows[i].run != rows[j].run)
    && (forall i :: 0 <= i < |rows| ==> Worth(rows[i].total) >= 0)
    && (forall i :: 0 <= i < |costRows| ==> CostsNotNegative(EntriesOf(costRows[i])))
  }

  /**
    A report is made exactly when the request is in order and every row can be added; then it is the naive group-by
    over the rows, and what a group shows is what its models show together.
  */
  method UsageReport(q: Query, now: int, rows: seq<Row>, costRows: seq<CostRow>) returns (r: Option<UsageReportResult>)
    requires Stored(rows, costRows)
    ensures r.Some? <==> Checked(q, now).Some?
                         && forall k :: 0 <= k < |rows| ==> Accepts(Checked(q, now).value, rows[..k], rows[k])
    ensures r.Some? ==> Consistent(Checked(q, now).value, r.value.groups, rows,
                                   if q.publicOnly then [] else AllEntries(costRows))
    ensures r.Some? ==> Charted(Checked(q, now).value, r.value.series, rows)
    ensures r.Some? ==>
              var f := Checked(q, now).value;
              PartsAre(r.value.groups, RowParts(f, rows) + if q.publicOnly then {} else CostParts(f, costRows))
  {
    hide PartsAre, RowParts, CostParts, RunMatches, Posted, Matches;
    hide Consistent, Charted, Accepts, Checked, Worth, EntriesOf, CostsNotNegative;
    var filter := Checked(q, now);
    if filter.None? {
      return None;
    }
    var report := new Aggregation(filter.value);
    NoParts(filter.value);
    assert rows[..0] == [] && costRows[..0] == [];
    for k := 0 to |rows|
      invariant fresh(report) && report.filter == filter.value && report.Valid(rows[..k], [])
      invariant PartsAre(report.buckets, RowParts(filter.value, rows[..k]))
      invariant forall j :: 0 <= j < k ==> Accepts(filter.value, rows[..j], rows[j])
    {
      assert rows[..k + 1] == rows[..k] + [rows[k]];
      PostedParts(filter.value, report.buckets, rows[k], RowParts(filter.value, rows[..k]));
      RowPartsMore(filter.value, rows[..k], rows[k]);
      var ok := report.AddPublicRow(rows[k], rows[..k], []);
      if !ok {
        return None;
      }
    }
    assert rows[..|rows|] == rows;
    ghost var parts := RowParts(filter.value, rows);
    assert parts + {} == parts;
    if q.publicOnly {
      return Some(UsageReportResult(report.buckets, report.series));
    }
    assert AllEntries(costRows[..0]) == [];
    assert parts + CostParts(filter.value, costRows[..0]) == parts;
    for k := 0 to |costRows|
      invariant fresh(report) && report.filter == filter.value && report.Valid(rows, AllEntries(costRows[..k]))
      invariant PartsAre(report.buckets, parts + CostParts(filter.value, costRows[..k]))
    {
      assert costRows[..k + 1][..k] == costRows[..k];
      assert costRows[..k + 1] == costRows[..k] + [costRows[k]];
      CostPartsMore(filter.value, costRows[..k], costRows[k]);
      ghost var before := CostParts(filter.value, costRows[..k]);
      ghost var part := Part(GroupId(filter.value, costRows[k].client, costRows[k].provider), costRows[k].deployment);
      assert parts + CostParts(filter.value, costRows[..k + 1])
          == if RunMatches(filter.value, costRows[k].client, costRows[k].provider) then parts + before + {part}
             else parts + before;
      report.AddCostRow(costRows[k], rows, AllEntries(costRows[..k]), parts + before);
    }
    assert costRows[..|costRows|] == costRows;
    r := Some(UsageReportResult(report.buckets, report.series));
  }

  lemma NoParts(f: Filter)
    ensures PartsAre(map[], RowParts(f, [])) && RowParts(f, []) == {} && CostParts(f, []) == {}
  {
  }

  lemma {:induction false} PrefixSum(f: Filter, rows: seq<Row>, k: nat, scope: Scope, c: Name)
    requires k <= |rows| && forall i :: 0 <= i < |rows| ==> Worth(rows[i].total) >= 0
    ensures Sum(f, rows[..k], scope, Public(c)) <= Sum(f, rows, scope, Public(c))
    decreases |rows| - k
  {
    hide Sum, InScope, Worth;
    if k == |rows| {
      assert rows[..k] == rows;
    } else {
      assert rows[..k + 1] == rows[..k] + [rows[k]];
      SumMore(f, rows[..k], rows[k], scope, Public(c));
      PrefixSum(f, rows, k + 1, scope, c);
    }
  }

  /** Every total fits: those of the groups, and those of the series when there are any. */
  ghost predicate TotalsFit(f: Filter, rows: seq<Row>) {
    && (forall g, c :: Sum(f, rows, Group(g), Public(c)) <= MAX_INT64)
    && (f.bucket > 0 ==> forall d, u :: Sum(f, rows, SeriesOf(d, u), Public(u)) <= MAX_INT64)
  }

  predicate RowReadable(f: Filter, row: Row) {
    Matches(f, row) ==> Readable(row.total) && (f.bucket > 0 ==> row.settledAt.Some?)
  }

  /** All rows can be added one after the other exactly when each is readable and all totals fit in the end. */
  lemma AcceptedWhenTotalsFit(f: Filter, rows: seq<Row>)
    requires forall i :: 0 <= i < |rows| ==> Worth(rows[i].total) >= 0
    requires TotalsFit(f, rows) && forall i :: 0 <= i < |rows| ==> RowReadable(f, rows[i])
    ensures forall k :: 0 <= k < |rows| ==> Accepts(f, rows[..k], rows[k])
  {
    forall k | 0 <= k < |rows|
      ensures Accepts(f, rows[..k], rows[k])
    {
      AcceptedAt(f, rows, k);
    }
  }

  lemma AcceptedAt(f: Filter, rows: seq<Row>, k: nat)
    requires k < |rows| && forall i :: 0 <= i < |rows| ==> Worth(rows[i].total) >= 0
    requires TotalsFit(f, rows) && RowReadable(f, rows[k])
    ensures Accepts(f, rows[..k], rows[k])
  {
    hide Sum, Readable, Worth, Slotted, Matches, GroupOf;
    var row := rows[k];
    assert rows[..k + 1] == rows[..k] + [row];
    RoomLeft(f, rows, k, Group(GroupOf(f, row)));
    RoomLeft(f, rows, k, SeriesOf(row.deployment, row.currency));
  }

  /** What the whole list adds up to bounds what is there after each of its rows. */
  lemma RoomLeft(f: Filter, rows: seq<Row>, k: nat, scope: Scope)
    requires k < |rows| && forall i :: 0 <= i < |rows| ==> Worth(rows[i].total) >= 0
    ensures InScope(f, rows[k], scope) ==>
              var m := Public(rows[k].currency);
              Sum(f, rows[..k], scope, m) + Worth(rows[k].total) <= Sum(f, rows, scope, m)
  {
    hide Sum, InScope, Worth;
    assert rows[..k + 1] == rows[..k] + [rows[k]];
    PrefixSum(f, rows, k + 1, scope, rows[k].currency);
    SumMore(f, rows[..k], rows[k], scope, Public(rows[k].currency));
  }

  lemma {:induction false} TotalsFitWhenAccepted(f: Filter, rows: seq<Row>)
    requires forall k :: 0 <= k < |rows| ==> Accepts(f, rows[..k], rows[k])
    ensures TotalsFit(f, rows) && forall i :: 0 <= i < |rows| ==> RowReadable(f, rows[i])
  {
    hide Readable, Worth, Slotted, Matches;
    if rows != [] {
      var last := |rows| - 1;
      assert rows == rows[..last] + [rows[last]];
      forall k | 0 <= k < last
        ensures Accepts(f, rows[..last][..k], rows[..last][k])
      {
        assert rows[..last][..k] == rows[..k];
      }
      TotalsFitWhenAccepted(f, rows[..last]);
      TotalsFitMore(f, rows[..last], rows[last]);
      forall i | 0 <= i < |rows|
        ensures RowReadable(f, rows[i])
      {
        assert i < last ==> rows[i] == rows[..last][i];
      }
    }
  }

  lemma TotalsFitMore(f: Filter, rows: seq<Row>, row: Row)
    requires TotalsFit(f, rows) && Accepts(f, rows, row)
    ensures TotalsFit(f, rows + [row]) && RowReadable(f, row)
  {
    hide Sum, Readable, Worth, Slotted, Matches;
    forall g, c
      ensures Sum(f, rows + [row], Group(g), Public(c)) <= MAX_INT64
    {
      SumMore(f, rows, row, Group(g), Public(c));
    }
    forall d, u | f.bucket > 0
      ensures Sum(f, rows + [row], SeriesOf(d, u), Public(u)) <= MAX_INT64
    {
      SumMore(f, rows, row, SeriesOf(d, u), Public(u));
    }
  }

  /** When every run settled inside a window that fits a 64-bit duration, the series of a unit sum to the groups. */
  lemma SeriesSumToGroups(f: Filter, groups: Buckets, series: SeriesTable, rows: seq<Row>, entries: seq<Entry>, u: Name)
    requires Consistent(f, groups, rows, entries) && Charted(f, series, rows)
    requires f.bucket > 0 && WindowFits(f)
    requires forall i :: 0 <= i < |rows| ==> rows[i].settledAt.Some? && f.since <= rows[i].settledAt.value < f.until
    ensures Total(UnitTotals(series, u)) == Total(GroupValues(groups, Public(u)))
  {
    hide Tallied, AllSound, CostsTallied, PointCount, SeriesTallied, Matches, Slot;
    forall i | 0 <= i < |rows|
      ensures Slotted(f, rows[i])
    {
      SlotInWindow(f, rows[i].settledAt.value);
    }
    EveryRowPlotted(f, rows, Public(u));
  }

  /** In every group the tokens, runs, charges and costs of the models add up to those of the group. */
  lemma ModelsSumToGroup(f: Filter, groups: Buckets, rows: seq<Row>, entries: seq<Entry>, g: Name, m: Measure,
                         key: CostKey)
    requires Consistent(f, groups, rows, entries) && g in groups
    ensures Value(groups[g].figures, m) == Kept(m, Total(ModelValues(groups[g], m)))
    ensures At(groups[g].figures.actual, key) == Total(ModelActuals(groups[g], key))
  {
    hide Tallied, GrandTotals, CostsTallied;
    assert Sound(groups[g]);
  }
}
