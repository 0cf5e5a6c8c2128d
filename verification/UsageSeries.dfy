/** Time series of the public charges: one list of points for each model and unit. */
module UsageSeries {
  import opened Decimal
  import opened Names
  import opened Sums
  import opened UsageRows
  import opened Wrappers

  function PointCount(f: Filter): nat
    requires f.bucket > 0
  {
    if BucketCount(f) < 0 then 0 else BucketCount(f)
  }

  function SeriesAt(count: nat, series: SeriesTable, key: SeriesKey): Series {
    if key in series then series[key] else Series(0, seq(count, _ => 0))
  }

  /** A series that nothing was added to is all zeros. */
  lemma EmptyExactly(count: nat, key: SeriesKey)
    ensures var item := SeriesAt(count, map[], key);
            item.total == 0 && |item.points| == count && forall i :: 0 <= i < count ==> item.points[i] == 0
  {
  }

  function Added(item: Series, index: nat, value: int): Series
    requires index < |item.points|
  {
    Series(item.total + value, item.points[index := item.points[index] + value])
  }

  /** A series is the sum of its rows, each of its points the sum of the rows of its interval. */
  ghost predicate SeriesTally(f: Filter, item: Series, rows: seq<Row>, key: SeriesKey) {
    && item.total == Sum(f, rows, SeriesOf(key.deployment, key.unit), Public(key.unit))
    && (forall i :: 0 <= i < |item.points| ==>
          item.points[i] == Sum(f, rows, PointOf(key.deployment, key.unit, i), Public(key.unit)))
    && item.total == ListSum(item.points)
    && (forall i :: 0 <= i < |item.points| ==> item.points[i] >= 0)
  }

  ghost predicate SeriesTallied(f: Filter, count: nat, series: SeriesTable, rows: seq<Row>) {
    && (forall key :: SeriesTally(f, SeriesAt(count, series, key), rows, key))
    && (forall key :: key in series ==> |series[key].points| == count)
  }

  function Plotted(count: nat, series: SeriesTable, row: Row, slot: nat): SeriesTable
    requires slot < |SeriesAt(count, series, KeyOf(row)).points|
  {
    series[KeyOf(row) := Added(SeriesAt(count, series, KeyOf(row)), slot, Worth(row.total))]
  }

  predicate SlotIs(f: Filter, row: Row, slot: nat) {
    Slotted(f, row) && Slot(f, row.settledAt.value) == Some(slot)
  }

  lemma SeriesIn(f: Filter, item: Series, rows: seq<Row>, row: Row, slot: nat)
    requires SlotIs(f, row, slot) && slot < |item.points|
    requires SeriesTally(f, item, rows, KeyOf(row)) && Matches(f, row) && Worth(row.total) >= 0
    ensures SeriesTally(f, Added(item, slot, Worth(row.total)), rows + [row], KeyOf(row))
  {
    hide Matches, Slotted, Slot, Worth, ListSum, Sum;
    var key, v := KeyOf(row), Worth(row.total);
    var after := Added(item, slot, v);
    SumMore(f, rows, row, SeriesOf(key.deployment, key.unit), Public(key.unit));
    ListSumUpdate(item.points, slot, item.points[slot] + v);
    forall i | 0 <= i < |after.points|
      ensures after.points[i] == Sum(f, rows + [row], PointOf(key.deployment, key.unit, i), Public(key.unit))
    {
      SumMore(f, rows, row, PointOf(key.deployment, key.unit, i), Public(key.unit));
    }
  }

  lemma SeriesOut(f: Filter, item: Series, rows: seq<Row>, row: Row, key: SeriesKey)
    requires SeriesTally(f, item, rows, key)
    requires !Matches(f, row) || !Slotted(f, row) || key != KeyOf(row)
    ensures SeriesTally(f, item, rows + [row], key)
  {
    hide Matches, Slotted, Slot, Worth, ListSum, Sum;
    SumMore(f, rows, row, SeriesOf(key.deployment, key.unit), Public(key.unit));
    forall i | 0 <= i < |item.points|
      ensures item.points[i] == Sum(f, rows + [row], PointOf(key.deployment, key.unit, i), Public(key.unit))
    {
      SumMore(f, rows, row, PointOf(key.deployment, key.unit, i), Public(key.unit));
    }
  }

  lemma SeriesMore(f: Filter, count: nat, series: SeriesTable, rows: seq<Row>, row: Row, slot: nat)
    requires SeriesTallied(f, count, series, rows) && Matches(f, row) && Worth(row.total) >= 0
    requires SlotIs(f, row, slot) && slot < count
    ensures |SeriesAt(count, series, KeyOf(row)).points| == count
    ensures SeriesTallied(f, count, Plotted(count, series, row, slot), rows + [row])
  {
    var after := Plotted(count, series, row, slot);
    forall key
      ensures SeriesTally(f, SeriesAt(count, after, key), rows + [row], key)
    {
      assert SeriesTally(f, SeriesAt(count, series, key), rows, key);
      hide SeriesTally, SeriesTallied, Matches, Slotted, Slot, SlotIs, Worth, Added;
      if key == KeyOf(row) {
        SeriesIn(f, SeriesAt(count, series, key), rows, row, slot);
      } else {
        SeriesOut(f, SeriesAt(count, series, key), rows, row, key);
      }
    }
  }

  lemma SeriesSame(f: Filter, count: nat, series: SeriesTable, rows: seq<Row>, row: Row)
    requires SeriesTallied(f, count, series, rows) && (!Matches(f, row) || !Slotted(f, row))
    ensures SeriesTallied(f, count, series, rows + [row])
  {
    forall key
      ensures SeriesTally(f, SeriesAt(count, series, key), rows + [row], key)
    {
      assert SeriesTally(f, SeriesAt(count, series, key), rows, key);
      hide SeriesTally, SeriesTallied, Matches, Slotted;
      SeriesOut(f, SeriesAt(count, series, key), rows, row, key);
    }
  }

  ghost function UnitTotals(series: SeriesTable, unit: Name): map<SeriesKey, int> {
    map key | key in series && key.unit == unit :: series[key].total
  }

  /** All series of a unit together hold what the rows with a point hold together. */
  ghost predicate SeriesTotals(f: Filter, series: SeriesTable, rows: seq<Row>) {
    forall u :: Total(UnitTotals(series, u)) == Sum(f, rows, AnySlot, Public(u))
  }

  lemma PlottedTotals(count: nat, series: SeriesTable, row: Row, slot: nat, u: Name)
    requires slot < |SeriesAt(count, series, KeyOf(row)).points|
    ensures Total(UnitTotals(Plotted(count, series, row, slot), u))
         == Total(UnitTotals(series, u)) + Contribution(row, Public(u))
  {
    hide Worth;
    var key, after := KeyOf(row), Plotted(count, series, row, slot);
    if u == row.currency {
      var total := SeriesAt(count, series, key).total + Worth(row.total);
      assert UnitTotals(after, u) == UnitTotals(series, u)[key := total];
      assert At(UnitTotals(series, u), key) == SeriesAt(count, series, key).total;
      TotalUpdate(UnitTotals(series, u), key, total);
    } else {
      assert UnitTotals(after, u) == UnitTotals(series, u);
    }
  }

  lemma SlottedSum(f: Filter, rows: seq<Row>, row: Row, u: Name)
    requires Matches(f, row) && Slotted(f, row)
    ensures Sum(f, rows + [row], AnySlot, Public(u)) == Sum(f, rows, AnySlot, Public(u)) + Contribution(row, Public(u))
  {
    hide Sum, Slotted, Matches, Contribution;
    SumMore(f, rows, row, AnySlot, Public(u));
  }

  lemma SeriesTotalsMore(f: Filter, count: nat, series: SeriesTable, rows: seq<Row>, row: Row, slot: nat)
    requires SeriesTotals(f, series, rows) && Matches(f, row) && Slotted(f, row)
    requires slot < |SeriesAt(count, series, KeyOf(row)).points|
    ensures SeriesTotals(f, Plotted(count, series, row, slot), rows + [row])
  {
    hide Sum, Slotted, Matches, Contribution, UnitTotals, Plotted, SeriesAt, KeyOf, Total;
    forall u
      ensures Total(UnitTotals(Plotted(count, series, row, slot), u)) == Sum(f, rows + [row], AnySlot, Public(u))
    {
      SlottedSum(f, rows, row, u);
      PlottedTotals(count, series, row, slot, u);
    }
  }

  lemma SeriesTotalsSame(f: Filter, series: SeriesTable, rows: seq<Row>, row: Row)
    requires SeriesTotals(f, series, rows) && (!Matches(f, row) || !Slotted(f, row))
    ensures SeriesTotals(f, series, rows + [row])
  {
    forall u
      ensures Total(UnitTotals(series, u)) == Sum(f, rows + [row], AnySlot, Public(u))
    {
      hide Sum, Slotted, Matches;
      SumMore(f, rows, row, AnySlot, Public(u));
    }
  }

  /** When every matching row settled inside the window, the series of a unit sum to the groups. */
  lemma {:induction false} EveryRowPlotted(f: Filter, rows: seq<Row>, m: Measure)
    requires forall i :: 0 <= i < |rows| && Matches(f, rows[i]) ==> Slotted(f, rows[i])
    ensures Sum(f, rows, AnySlot, m) == Sum(f, rows, Everything, m)
  {
    if rows != [] {
      var last := |rows| - 1;
      assert rows == rows[..last] + [rows[last]];
      SumMore(f, rows[..last], rows[last], AnySlot, m);
      SumMore(f, rows[..last], rows[last], Everything, m);
      EveryRowPlotted(f, rows[..last], m);
    }
  }

  ghost predicate SeriesInRange(series: SeriesTable) {
    forall key :: key in series ==> 0 <= series[key].total <= MAX_INT64
  }

  ghost predicate Charted(f: Filter, series: SeriesTable, rows: seq<Row>) {
    if f.bucket > 0 then
      SeriesTallied(f, PointCount(f), series, rows) && SeriesTotals(f, series, rows) && SeriesInRange(series)
    else
      series == map[]
  }

  /** What a row needs to be added to its series. */
  ghost predicate SeriesAccepts(f: Filter, rows: seq<Row>, row: Row) {
    f.bucket > 0 ==>
      && row.settledAt.Some?
      && (Slotted(f, row) ==>
            Sum(f, rows, SeriesOf(row.deployment, row.currency), Public(row.currency)) + Worth(row.total) <= MAX_INT64)
  }

  /** What a row needs to be added: a readable total that fits its group and its series. */
  ghost predicate Accepts(f: Filter, rows: seq<Row>, row: Row) {
    Matches(f, row) ==>
      && Readable(row.total)
      && Sum(f, rows, Group(GroupOf(f, row)), Public(row.currency)) + Worth(row.total) <= MAX_INT64
      && SeriesAccepts(f, rows, row)
  }

  lemma PointFits(f: Filter, series: SeriesTable, rows: seq<Row>, key: SeriesKey, slot: nat)
    requires f.bucket > 0 && Charted(f, series, rows) && slot < PointCount(f)
    ensures var item := SeriesAt(PointCount(f), series, key);
            && |item.points| == PointCount(f) && 0 <= item.points[slot] <= item.total <= MAX_INT64
            && item.total == Sum(f, rows, SeriesOf(key.deployment, key.unit), Public(key.unit))
  {
    hide PointCount, Sum;
    var item := SeriesAt(PointCount(f), series, key);
    assert SeriesTally(f, item, rows, key);
    ListSumAtLeast(item.points, slot);
  }

  lemma ChartedRow(f: Filter, series: SeriesTable, rows: seq<Row>, row: Row, slot: nat)
    requires f.bucket > 0 && Charted(f, series, rows) && Matches(f, row) && SlotIs(f, row, slot) && slot < PointCount(f)
    requires Worth(row.total) >= 0
    requires SeriesAt(PointCount(f), series, KeyOf(row)).total + Worth(row.total) <= MAX_INT64
    ensures slot < |SeriesAt(PointCount(f), series, KeyOf(row)).points|
    ensures Charted(f, Plotted(PointCount(f), series, row, slot), rows + [row])
  {
    hide PointCount, Sum, Matches, Worth, SeriesTallied, SeriesTotals, Slot;
    PointFits(f, series, rows, KeyOf(row), slot);
    SeriesMore(f, PointCount(f), series, rows, row, slot);
    SeriesTotalsMore(f, PointCount(f), series, rows, row, slot);
  }

  lemma ChartedSame(f: Filter, series: SeriesTable, rows: seq<Row>, row: Row)
    requires Charted(f, series, rows) && (!Matches(f, row) || !Slotted(f, row))
    ensures Charted(f, series, rows + [row])
  {
    hide PointCount, Sum, Matches, Worth, SeriesTallied, SeriesTotals, Slotted;
    if f.bucket > 0 {
      SeriesSame(f, PointCount(f), series, rows, row);
      SeriesTotalsSame(f, series, rows, row);
    }
  }
}
