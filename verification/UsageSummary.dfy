/**
  The lifetime summary: for every deployment and currency the runs, the tokens and a running total that is kept as
  text and parsed again for every row.
*/
module UsageSummary {
  import opened Decimal
  import opened Names
  import opened UsageRows
  import opened Wrappers

  datatype DeploymentUsage = DeploymentUsage(key: SeriesKey, runs: int, input: int, output: int, publicTotal: string)

  /** The filter that every row passes. */
  const EVERY_RUN := Filter(false, Name(""), Name(""), map[], 0, 1, 0)

  /** A sum over the rows of one deployment and currency. */
  ghost function SumFor(rows: seq<Row>, key: SeriesKey, m: Measure): int {
    Sum(EVERY_RUN, rows, Keyed(key.deployment, key.unit), m)
  }

  ghost function TotalFor(rows: seq<Row>, key: SeriesKey): int {
    SumFor(rows, key, Public(key.unit))
  }

  lemma SumForMore(rows: seq<Row>, row: Row, key: SeriesKey, m: Measure)
    ensures SumFor(rows + [row], key, m) == SumFor(rows, key, m) + if KeyOf(row) == key then Contribution(row, m) else 0
  {
    SumMore(EVERY_RUN, rows, row, Keyed(key.deployment, key.unit), m);
  }

  /** An entry shows the exact sums; its text denotes the exact total. */
  /** The summary counts every run of the deployment and currency. */
  lemma EveryRunCounts(row: Row, key: SeriesKey)
    ensures InScope(EVERY_RUN, row, Keyed(key.deployment, key.unit))
       <==> row.deployment == key.deployment && row.currency == key.unit
    ensures KeyOf(row).deployment == row.deployment && KeyOf(row).unit == row.currency
  {
  }

  ghost predicate Shows(item: DeploymentUsage, rows: seq<Row>, key: SeriesKey) {
    && item.key == key
    && item.runs == SumFor(rows, key, Runs)
    && item.input == Wrap64(SumFor(rows, key, Input))
    && item.output == Wrap64(SumFor(rows, key, Output))
    && 0 <= TotalFor(rows, key) <= MAX_INT64
    && item.publicTotal == Print(TotalFor(rows, key))
  }

  ghost predicate ItemsShow(items: seq<DeploymentUsage>, index: map<SeriesKey, nat>, rows: seq<Row>) {
    && (forall i :: 0 <= i < |items| ==>
          items[i].key in index && index[items[i].key] == i && Shows(items[i], rows, items[i].key))
    && (forall key :: key in index ==> index[key] < |items| && items[index[key]].key == key)
  }

  ghost predicate KeysCovered(index: map<SeriesKey, nat>, rows: seq<Row>) {
    && (forall key :: key in index <==> exists i :: 0 <= i < |rows| && KeyOf(rows[i]) == key)
    && (forall key, m :: key !in index ==> SumFor(rows, key, m) == 0)
  }

  /** One entry for each key that occurs, and it shows the sums of its rows. */
  ghost predicate Summarizes(items: seq<DeploymentUsage>, index: map<SeriesKey, nat>, rows: seq<Row>) {
    ItemsShow(items, index, rows) && KeysCovered(index, rows)
  }

  /** What a row needs to be added. */
  ghost predicate Addable(rows: seq<Row>, row: Row) {
    Readable(row.total) && TotalFor(rows, KeyOf(row)) + Worth(row.total) <= MAX_INT64
  }

  function Opened(key: SeriesKey): DeploymentUsage {
    DeploymentUsage(key, 0, 0, 0, "0.000000000")
  }

  function Grown(item: DeploymentUsage, row: Row, publicTotal: string): DeploymentUsage {
    DeploymentUsage(item.key, item.runs + 1, Wrap64(item.input + row.input), Wrap64(item.output + row.output),
                    publicTotal)
  }

  lemma ZeroText()
    ensures Print(0) == "0.000000000"
  {
    assert Padded(0, 3) == "000";
    assert Padded(0, 6) == "000000";
  }

  lemma ShowsGrown(item: DeploymentUsage, rows: seq<Row>, row: Row)
    requires Shows(item, rows, KeyOf(row)) && Addable(rows, row) && Worth(row.total) >= 0
    ensures Shows(Grown(item, row, Print(TotalFor(rows, KeyOf(row)) + Worth(row.total))), rows + [row], KeyOf(row))
  {
    var key := KeyOf(row);
    hide SumFor, Worth, Print, Readable, Wrap64;
    WrapSum(SumFor(rows, key, Input), row.input);
    WrapSum(SumFor(rows, key, Output), row.output);
    SumForMore(rows, row, key, Runs);
    SumForMore(rows, row, key, Input);
    SumForMore(rows, row, key, Output);
    SumForMore(rows, row, key, Public(key.unit));
  }

  lemma ShowsOther(item: DeploymentUsage, rows: seq<Row>, row: Row, key: SeriesKey)
    requires Shows(item, rows, key) && key != KeyOf(row)
    ensures Shows(item, rows + [row], key)
  {
    hide SumFor, Print;
    SumForMore(rows, row, key, Runs);
    SumForMore(rows, row, key, Input);
    SumForMore(rows, row, key, Output);
    SumForMore(rows, row, key, Public(key.unit));
  }

  lemma SummaryOpened(items: seq<DeploymentUsage>, index: map<SeriesKey, nat>, rows: seq<Row>, key: SeriesKey)
    requires Summarizes(items, index, rows) && key !in index
    ensures Shows(Opened(key), rows, key)
  {
    hide SumFor, Print;
    ZeroText();
  }

  lemma ItemsMore(items: seq<DeploymentUsage>, index: map<SeriesKey, nat>, rows: seq<Row>, row: Row,
                  items': seq<DeploymentUsage>, index': map<SeriesKey, nat>)
    requires ItemsShow(items, index, rows) && KeyOf(row) in index'
    requires index' == if KeyOf(row) in index then index else index[KeyOf(row) := |items|]
    requires |items'| == if KeyOf(row) in index then |items| else |items| + 1
    requires forall i :: 0 <= i < |items| && i != index'[KeyOf(row)] ==> items'[i] == items[i]
    requires index'[KeyOf(row)] < |items'| && Shows(items'[index'[KeyOf(row)]], rows + [row], KeyOf(row))
    ensures ItemsShow(items', index', rows + [row])
  {
    hide SumFor, Shows;
    KeyShown(items'[index'[KeyOf(row)]], rows + [row], KeyOf(row));
    forall i | 0 <= i < |items'|
      ensures items'[i].key in index' && index'[items'[i].key] == i && Shows(items'[i], rows + [row], items'[i].key)
    {
      if i != index'[KeyOf(row)] {
        ShowsOther(items[i], rows, row, items[i].key);
      }
    }
  }

  lemma KeysMore(index: map<SeriesKey, nat>, rows: seq<Row>, row: Row, at: nat)
    requires KeysCovered(index, rows)
    ensures KeysCovered(if KeyOf(row) in index then index else index[KeyOf(row) := at], rows + [row])
  {
    hide SumFor;
    var all := rows + [row];
    var index' := if KeyOf(row) in index then index else index[KeyOf(row) := at];
    assert all[|rows|] == row;
    assert forall i :: 0 <= i < |rows| ==> all[i] == rows[i];
    forall key, m | key !in index'
      ensures SumFor(all, key, m) == 0
    {
      SumForMore(rows, row, key, m);
    }
    forall key | key in index'
      ensures exists i :: 0 <= i < |all| && KeyOf(all[i]) == key
    {
      if key == KeyOf(row) {
        assert KeyOf(all[|rows|]) == key;
      } else {
        var i :| 0 <= i < |rows| && KeyOf(rows[i]) == key;
        assert KeyOf(all[i]) == key;
      }
    }
  }

  lemma KeyShown(item: DeploymentUsage, rows: seq<Row>, key: SeriesKey)
    requires Shows(item, rows, key)
    ensures item.key == key
  {
  }

  /** The text of a total read back and increased. */
  lemma TextAdds(total: int, more: int)
    requires 0 <= total <= MAX_INT64 && more >= 0
    ensures ParseDecimal(Print(total)) == Ok(total)
    ensures Add(total, more).Ok? <==> total + more <= MAX_INT64
    ensures Add(total, more).Ok? ==> Add(total, more).value == total + more
  {
    hide ParseDecimal, Print, Add;
    PrintParse(total);
    AddExact(total, more);
  }

  /** The settled runs of every deployment; false means that a total cannot be read or does not fit. */
  method UsageSummary(rows: seq<Row>) returns (ok: bool, items: seq<DeploymentUsage>, index: map<SeriesKey, nat>)
    requires forall i :: 0 <= i < |rows| ==> Worth(rows[i].total) >= 0
    ensures ok <==> forall k :: 0 <= k < |rows| ==> Addable(rows[..k], rows[k])
    ensures ok ==> Summarizes(items, index, rows)
  {
    hide Worth, Shows, Print, ParseDecimal, KeysCovered, Add;
    items, index := [], map[];
    assert rows[..0] == [];
    NothingSummarized();
    for k := 0 to |rows|
      invariant Summarizes(items, index, rows[..k])
      invariant forall j :: 0 <= j < k ==> Addable(rows[..j], rows[j])
    {
      var row := rows[k];
      var key := KeyOf(row);
      ghost var items0, index0 := items, index;
      assert rows[..k + 1] == rows[..k] + [row];
      ItemFound(items, index, rows[..k], key);
      if key !in index {
        index := index[key := |items|];
        items := items + [Opened(key)];
      }
      var at := index[key];
      var item := items[at];
      assert Shows(item, rows[..k], key);
      ShownText(item, rows[..k], key);
      TextAdds(TotalFor(rows[..k], key), Worth(row.total));
      var current := ParseDecimal(item.publicTotal);
      if current.Err? || !Readable(row.total) {
        return false, items, index;
      }
      var sum := Add(current.value, Worth(row.total));
      if sum.Err? {
        return false, items, index;
      }
      ShowsGrown(item, rows[..k], row);
      items := items[at := Grown(item, row, Print(sum.value))];
      KeysMore(index0, rows[..k], row, |items0|);
      ItemsMore(items0, index0, rows[..k], row, items, index);
    }
    assert rows[..|rows|] == rows;
    ok := true;
  }

  lemma NothingSummarized()
    ensures Summarizes([], map[], [])
  {
  }

  lemma ItemFound(items: seq<DeploymentUsage>, index: map<SeriesKey, nat>, rows: seq<Row>, key: SeriesKey)
    requires Summarizes(items, index, rows)
    ensures key in index ==> index[key] < |items| && Shows(items[index[key]], rows, key)
    ensures key !in index ==> Shows(Opened(key), rows, key)
  {
    if key !in index {
      SummaryOpened(items, index, rows, key);
    }
  }

  lemma ShownText(item: DeploymentUsage, rows: seq<Row>, key: SeriesKey)
    requires Shows(item, rows, key)
    ensures item.publicTotal == Print(TotalFor(rows, key)) && 0 <= TotalFor(rows, key) <= MAX_INT64
  {
  }
}
