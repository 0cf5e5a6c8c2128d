/** What a usage report is about: the rows it reads, its time buckets, and its meaning as plain sums over rows. */
module UsageRows {
  import opened Decimal
  import opened Names
  import opened Sums
  import opened Wrappers

  /** A settled run; `settledAt` is None when the stored time does not parse. Times are in nanoseconds. */
  datatype Row = Row(run: Name, client: Name, deployment: Name, input: int, output: int, currency: Name, total: string,
                     settledAt: Option<int>)

  datatype CostRecord = CostRecord(unit: Name, source: Name, total: string)

  /** One upstream answer; `records` is None when its payload does not decode. */
  datatype CostRow = CostRow(client: Name, deployment: Name, provider: Name, records: Option<seq<CostRecord>>)

  datatype CostKey = CostKey(provider: Name, unit: Name, source: Name)

  datatype Figures = Figures(runs: set<Name>, input: int, output: int, public: map<Name, int>, actual: map<CostKey,
                             int>)

  datatype Model = Model(provider: Name, figures: Figures)

  datatype Bucket = Bucket(figures: Figures, models: map<Name, Model>)

  datatype SeriesKey = SeriesKey(deployment: Name, unit: Name)

  function KeyOf(row: Row): SeriesKey {
    SeriesKey(row.deployment, row.currency)
  }

  datatype Series = Series(total: int, points: seq<int>)

  type Buckets = map<Name, Bucket>

  type SeriesTable = map<SeriesKey, Series>

  const NOTHING := Figures({}, 0, 0, map[], map[])

  /** A checked filter: the window is not empty, and a time series is asked for only by client, in buckets that fit. */
  datatype Filter = Filter(byClient: bool, client: Name, provider: Name, providerByDeployment: map<Name, Name>,
                           since: int, until: int, bucket: int)
  {
    predicate Valid() {
      since < until && (bucket > 0 ==> byClient && bucket <= SaturatedSub(until, since))
    }
  }

  /** The difference of two instants: a 64-bit duration that sticks at its ends. */
  function SaturatedSub(a: int, b: int): (d: int)
    ensures IsInt64(d)
  {
    var d := a - b;
    if d > MAX_INT64 then MAX_INT64 else if d < MIN_INT64 then MIN_INT64 else d
  }

  function ProviderOf(f: Filter, deployment: Name): Name {
    if deployment in f.providerByDeployment && f.providerByDeployment[deployment].text != ""
    then f.providerByDeployment[deployment] else Name("unknown")
  }

  predicate RunMatches(f: Filter, client: Name, provider: Name) {
    (f.client.text == "" || f.client == client) && (f.provider.text == "" || f.provider == provider)
  }

  function GroupId(f: Filter, client: Name, provider: Name): Name {
    if f.byClient then client else provider
  }

  predicate Matches(f: Filter, row: Row) {
    RunMatches(f, row.client, ProviderOf(f, row.deployment))
  }

  function GroupOf(f: Filter, row: Row): Name {
    GroupId(f, row.client, ProviderOf(f, row.deployment))
  }

  // ------------------------------------------------ the time buckets

  /** A report by client groups each row under its client, any other report under the provider of its deployment. */
  lemma GroupExactly(f: Filter, row: Row)
    ensures f.byClient ==> GroupOf(f, row) == row.client
    ensures (&& !f.byClient && row.deployment in f.providerByDeployment
             && f.providerByDeployment[row.deployment].text != "") ==>
              GroupOf(f, row) == f.providerByDeployment[row.deployment]
    ensures (&& !f.byClient
             && (row.deployment in f.providerByDeployment ==> f.providerByDeployment[row.deployment].text == "")) ==>
              GroupOf(f, row) == Name("unknown")
    ensures Matches(f, row)
       <==> && (f.client == Name("") || row.client == f.client)
            && (f.provider == Name("")
                || (row.deployment in f.providerByDeployment && f.providerByDeployment[row.deployment] == f.provider)
                || (f.provider == Name("unknown")
                    && (row.deployment in f.providerByDeployment ==>
                          f.providerByDeployment[row.deployment] == Name(""))))
  {
  }

  function BucketCount(f: Filter): int
    requires f.bucket > 0
  {
    TruncDiv(Wrap64(SaturatedSub(f.until, f.since) + f.bucket - 1), f.bucket)
  }

  function BucketIndex(f: Filter, settledAt: int): int
    requires f.bucket > 0
  {
    TruncDiv(SaturatedSub(settledAt, f.since), f.bucket)
  }

  /** The point of the series a settlement belongs to, if any. */
  function Slot(f: Filter, settledAt: int): (r: Option<nat>)
    requires f.bucket > 0
    ensures r.Some? ==> r.value < BucketCount(f)
  {
    var index := BucketIndex(f, settledAt);
    if index < 0 || index >= BucketCount(f) then None else Some(index)
  }

  lemma DivisionBounds(x: int, b: int)
    requires x >= 0 && b > 0
    ensures x / b >= 0 && x / b * b <= x < x / b * b + b
  {
  }

  lemma MulAtLeast(x: int, y: int, b: int)
    requires x >= y && b > 0
    ensures x * b >= y * b
  {
  }

  lemma OneMore(q: int, b: int)
    ensures (q + 1) * b == q * b + b
  {
  }

  lemma DivisionBelow(d: int, w: int, b: int)
    requires 0 <= d < w && b > 0
    ensures d / b < (w + b - 1) / b
  {
    var q, p := d / b, (w + b - 1) / b;
    DivisionBounds(d, b);
    DivisionBounds(w + b - 1, b);
    if q >= p {
      MulAtLeast(q, p, b);
    }
  }

  /** The window and one bucket, less a nanosecond, fit a 64-bit duration. */
  predicate WindowFits(f: Filter) {
    f.until - f.since + f.bucket - 1 <= MAX_INT64
  }

  /** As long as the window fits, a settlement inside it has the point whose interval contains it. */
  lemma SlotInWindow(f: Filter, settledAt: int)
    requires f.bucket > 0 && WindowFits(f) && f.since <= settledAt < f.until
    ensures Slot(f, settledAt).Some?
    ensures var i: int := Slot(f, settledAt).value; f.since + i * f.bucket <= settledAt < f.since + (i + 1) * f.bucket
  {
    var d, w, b := settledAt - f.since, f.until - f.since, f.bucket;
    DivisionBounds(d, b);
    DivisionBelow(d, w, b);
    OneMore(d / b, b);
    assert BucketIndex(f, settledAt) == d / b;
    assert BucketCount(f) == (w + b - 1) / b;
  }

  lemma WrapsBelowZero(x: int)
    requires MAX_INT64 < x <= 2 * MAX_INT64
    ensures Wrap64(x) < 0
  {
  }

  lemma NoQuotient(x: int, b: int)
    requires x < 0 && b > 0
    ensures TruncDiv(x, b) <= 0
  {
    DivisionBounds(-x, b);
  }

  /** Otherwise the number of points overflows, and no settlement has one, unless buckets are single nanoseconds. */
  lemma NoSlotInHugeWindow(f: Filter, settledAt: int)
    requires f.Valid() && f.bucket > 1 && !WindowFits(f)
    ensures Slot(f, settledAt).None?
  {
    hide Wrap64, TruncDiv, BucketIndex;
    var x := SaturatedSub(f.until, f.since) + f.bucket - 1;
    WrapsBelowZero(x);
    NoQuotient(Wrap64(x), f.bucket);
  }

  lemma NanosecondSlots(f: Filter, settledAt: int)
    requires f.bucket == 1 && !WindowFits(f) && f.since <= settledAt
    ensures Slot(f, settledAt).Some? <==> settledAt - f.since < MAX_INT64
    ensures Slot(f, settledAt).Some? ==> Slot(f, settledAt).value == settledAt - f.since
  {
    WholeQuotient(SaturatedSub(settledAt, f.since));
    WholeQuotient(MAX_INT64);
  }

  lemma WholeQuotient(x: int)
    requires x >= 0
    ensures TruncDiv(x, 1) == x
  {
  }

  /**
    Which settlements inside a valid window have a point: all of them when the window fits; otherwise none, except
    with buckets of one nanosecond, where those within a 64-bit duration of the start do.
  */
  lemma SlotExactly(f: Filter, settledAt: int)
    requires f.Valid() && f.bucket > 0 && f.since <= settledAt < f.until
    ensures Slot(f, settledAt).Some? <==> WindowFits(f) || (f.bucket == 1 && settledAt - f.since < MAX_INT64)
  {
    hide Slot;
    if WindowFits(f) {
      SlotInWindow(f, settledAt);
    } else if f.bucket > 1 {
      NoSlotInHugeWindow(f, settledAt);
    } else {
      NanosecondSlots(f, settledAt);
    }
  }

  /** A window of almost 2^63 nanoseconds in buckets of two: nothing is plotted. */
  lemma EmptySeriesExample()
    ensures var f := Filter(true, Name(""), Name(""), map[], 0, MAX_INT64, 2);
            f.Valid() && Slot(f, 7).None?
  {
    var f := Filter(true, Name(""), Name(""), map[], 0, MAX_INT64, 2);
    assert f.Valid();
    hide Slot;
    NoSlotInHugeWindow(f, 7);
  }

  /** A window beyond it in buckets of one: early settlements are plotted, late ones are not. */
  lemma PartialSeriesExample()
    ensures var f := Filter(true, Name(""), Name(""), map[], 0, MAX_INT64 + 5, 1);
            f.Valid() && Slot(f, 7) == Some(7) && Slot(f, MAX_INT64 + 1).None?
  {
    var f := Filter(true, Name(""), Name(""), map[], 0, MAX_INT64 + 5, 1);
    assert f.Valid();
    hide Slot;
    NanosecondSlots(f, 7);
    NanosecondSlots(f, MAX_INT64 + 1);
  }

  // ------------------------------------------------ the meaning: sums over rows

  /** A part of the report. */
  datatype Scope =
    | Everything
    | Group(group: Name)
    | ModelOf(group: Name, deployment: Name)
    | Keyed(deployment: Name, unit: Name)
    | AnySlot
    | SeriesOf(deployment: Name, unit: Name)
    | PointOf(deployment: Name, unit: Name, index: nat)

  datatype Measure = Runs | Input | Output | Public(currency: Name)

  predicate Slotted(f: Filter, row: Row) {
    f.bucket > 0 && row.settledAt.Some? && Slot(f, row.settledAt.value).Some?
  }

  predicate InScope(f: Filter, row: Row, scope: Scope) {
    && Matches(f, row)
    && match scope
       case Everything => true
       case Group(g) => GroupOf(f, row) == g
       case ModelOf(g, d) => GroupOf(f, row) == g && row.deployment == d
       case Keyed(d, u) => row.deployment == d && row.currency == u
       case AnySlot => Slotted(f, row)
       case SeriesOf(d, u) => Slotted(f, row) && row.deployment == d && row.currency == u
       case PointOf(d, u, i) =>
         Slotted(f, row) && row.deployment == d && row.currency == u && Slot(f, row.settledAt.value) == Some(i)
  }

  function Contribution(row: Row, m: Measure): int {
    match m
    case Runs => 1
    case Input => row.input
    case Output => row.output
    case Public(c) => if row.currency == c then Worth(row.total) else 0
  }

  /** Which rows each part of a report is about. */
  lemma ScopeExactly(f: Filter, row: Row, group: Name, deployment: Name, unit: Name, index: nat)
    ensures InScope(f, row, Everything) <==> Matches(f, row)
    ensures InScope(f, row, Group(group)) <==> Matches(f, row) && GroupOf(f, row) == group
    ensures InScope(f, row, ModelOf(group, deployment))
       <==> Matches(f, row) && GroupOf(f, row) == group && row.deployment == deployment
    ensures InScope(f, row, Keyed(deployment, unit))
       <==> Matches(f, row) && row.deployment == deployment && row.currency == unit
    ensures InScope(f, row, AnySlot)
       <==> Matches(f, row) && f.bucket > 0 && row.settledAt.Some? && Slot(f, row.settledAt.value).Some?
    ensures InScope(f, row, SeriesOf(deployment, unit))
       <==> && Matches(f, row) && f.bucket > 0 && row.settledAt.Some? && Slot(f, row.settledAt.value).Some?
            && row.deployment == deployment && row.currency == unit
    ensures InScope(f, row, PointOf(deployment, unit, index))
       <==> && Matches(f, row) && f.bucket > 0 && row.settledAt.Some? && Slot(f, row.settledAt.value) == Some(index)
            && row.deployment == deployment && row.currency == unit
  {
    hide Slot, Matches, GroupOf;
  }

  /** What a row adds to each figure, under its own name. */
  lemma ContributionExactly(row: Row, currency: Name)
    ensures Contribution(row, Runs) == 1
    ensures Contribution(row, Input) == row.input && Contribution(row, Output) == row.output
    ensures Contribution(row, Public(row.currency)) == Worth(row.total)
    ensures currency != row.currency ==> Contribution(row, Public(currency)) == 0
  {
    hide Worth;
  }

  ghost function Sum(f: Filter, rows: seq<Row>, scope: Scope, m: Measure): int {
    if rows == [] then 0
    else
      var last := rows[|rows| - 1];
      Sum(f, rows[..|rows| - 1], scope, m) + if InScope(f, last, scope) then Contribution(last, m) else 0
  }

  lemma SumMore(f: Filter, rows: seq<Row>, row: Row, scope: Scope, m: Measure)
    ensures Sum(f, rows + [row], scope, m)
         == Sum(f, rows, scope, m) + if InScope(f, row, scope) then Contribution(row, m) else 0
  {
    assert (rows + [row])[..|rows|] == rows;
  }

  // ------------------------------------------------ adding to a total

  function AddReportDecimal<K>(target: map<K, int>, key: K, raw: string): Result<map<K, int>> {
    if !Readable(raw) then Err("amount cannot be read")
    else
      match Add(At(target, key), Worth(raw))
      case Err(reason) => Err(reason)
      case Ok(sum) => Ok(target[key := sum])
  }

  /** Amounts that are not negative are added exactly or not at all. */
  lemma AddReportDecimalMeans<K>(target: map<K, int>, key: K, raw: string)
    requires 0 <= At(target, key) <= MAX_INT64 && Worth(raw) >= 0
    ensures AddReportDecimal(target, key, raw).Ok? <==> Readable(raw) && At(target, key) + Worth(raw) <= MAX_INT64
    ensures AddReportDecimal(target, key, raw).Ok? ==>
              AddReportDecimal(target, key, raw).value == target[key := At(target, key) + Worth(raw)]
  {
    hide Readable, Worth, At;
  }
}
