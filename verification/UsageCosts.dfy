/** Upstream costs in the groups, and what every step of a report keeps. */
module UsageCosts {
  import opened Decimal
  import opened Names
  import opened Sums
  import opened UsageGroups
  import opened UsageRows
  import opened Wrappers

  /** One cost record with the answer it came from. */
  datatype Entry = Entry(client: Name, deployment: Name, provider: Name, unit: Name, source: Name, total: string)

  function CostKeyOf(e: Entry): CostKey {
    CostKey(e.provider, e.unit, e.source)
  }

  predicate CostIn(f: Filter, e: Entry, scope: Scope) {
    && RunMatches(f, e.client, e.provider)
    && match scope
       case Group(g) => GroupId(f, e.client, e.provider) == g
       case ModelOf(g, d) => GroupId(f, e.client, e.provider) == g && e.deployment == d
       case _ => false
  }

  ghost function CostSum(f: Filter, entries: seq<Entry>, scope: Scope, key: CostKey): int {
    if entries == [] then 0
    else
      var last := entries[|entries| - 1];
      CostSum(f, entries[..|entries| - 1], scope, key)
      + if CostIn(f, last, scope) && CostKeyOf(last) == key then Worth(last.total) else 0
  }

  lemma CostSumMore(f: Filter, entries: seq<Entry>, e: Entry, scope: Scope, key: CostKey)
    ensures CostSum(f, entries + [e], scope, key)
         == CostSum(f, entries, scope, key) + if CostIn(f, e, scope) && CostKeyOf(e) == key then Worth(e.total) else 0
  {
    assert (entries + [e])[..|entries|] == entries;
  }

  /** A cost counts for the group of its client, or of the provider that reported it, and for its own key. */
  lemma CostExactly(f: Filter, e: Entry, group: Name, deployment: Name)
    ensures CostIn(f, e, Group(group))
       <==> && (f.client == Name("") || e.client == f.client) && (f.provider == Name("") || e.provider == f.provider)
            && group == if f.byClient then e.client else e.provider
    ensures CostIn(f, e, ModelOf(group, deployment)) <==> CostIn(f, e, Group(group)) && e.deployment == deployment
    ensures CostKeyOf(e).provider == e.provider && CostKeyOf(e).unit == e.unit && CostKeyOf(e).source == e.source
  {
  }

  /** Whether a record can be added to a total. */
  predicate Fits(total: int, e: Entry) {
    Readable(e.total) && total + Worth(e.total) <= MAX_INT64
  }

  /** The total of a group for one kind of cost: what can be read and still fits is added, the rest is skipped. */
  ghost function CostTotal(f: Filter, entries: seq<Entry>, g: Name, key: CostKey): int {
    if entries == [] then 0
    else
      var before, last := CostTotal(f, entries[..|entries| - 1], g, key), entries[|entries| - 1];
      before
      + if CostIn(f, last, Group(g)) && CostKeyOf(last) == key && Fits(before, last) then Worth(last.total) else 0
  }

  /** The share of one model in that total: of its own records, those that its group could add. */
  ghost function CostShare(f: Filter, entries: seq<Entry>, g: Name, d: Name, key: CostKey): int {
    if entries == [] then 0
    else
      var init, last := entries[..|entries| - 1], entries[|entries| - 1];
      CostShare(f, init, g, d, key)
      + if CostIn(f, last, ModelOf(g, d)) && CostKeyOf(last) == key && Fits(CostTotal(f, init, g, key), last)
        then Worth(last.total) else 0
  }

  lemma CostTotalMore(f: Filter, entries: seq<Entry>, e: Entry, g: Name, d: Name, key: CostKey)
    ensures CostTotal(f, entries + [e], g, key)
         == CostTotal(f, entries, g, key)
            + if CostIn(f, e, Group(g)) && CostKeyOf(e) == key && Fits(CostTotal(f, entries, g, key), e)
              then Worth(e.total) else 0
    ensures CostShare(f, entries + [e], g, d, key)
         == CostShare(f, entries, g, d, key)
            + if CostIn(f, e, ModelOf(g, d)) && CostKeyOf(e) == key && Fits(CostTotal(f, entries, g, key), e)
              then Worth(e.total) else 0
  {
    assert (entries + [e])[..|entries|] == entries;
  }

  /** When everything fits in the end, nothing was skipped but what cannot be read: the totals are the plain sums. */
  lemma {:induction false} FittingCostsAreSums(f: Filter, entries: seq<Entry>, g: Name, d: Name, key: CostKey)
    requires forall i :: 0 <= i < |entries| ==> Worth(entries[i].total) >= 0
    requires CostSum(f, entries, Group(g), key) <= MAX_INT64
    ensures CostTotal(f, entries, g, key) == CostSum(f, entries, Group(g), key)
    ensures CostShare(f, entries, g, d, key) == CostSum(f, entries, ModelOf(g, d), key)
  {
    if entries != [] {
      var init, last := entries[..|entries| - 1], entries[|entries| - 1];
      assert !Readable(last.total) ==> Worth(last.total) == 0;
      hide Worth, Readable, RunMatches, GroupId;
      FittingCostsAreSums(f, init, g, d, key);
    }
  }

  /** The cost figures of a group and of its models are these totals. */
  ghost predicate CostTally(f: Filter, buckets: Buckets, entries: seq<Entry>, g: Name, d: Name, key: CostKey) {
    && At(FiguresAt(buckets, Group(g)).actual, key) == CostTotal(f, entries, g, key)
    && At(FiguresAt(buckets, ModelOf(g, d)).actual, key) == CostShare(f, entries, g, d, key)
  }

  ghost predicate CostsTallied(f: Filter, buckets: Buckets, entries: seq<Entry>) {
    forall g, d, key :: CostTally(f, buckets, entries, g, d, key)
  }

  /** ensureReportModel: the group and the model exist from now on. */
  function Opened(buckets: Buckets, group: Name, deployment: Name, provider: Name): (r: Buckets)
    ensures group in r && deployment in r[group].models
  {
    buckets[group := OpenedBucket(BucketAt(buckets, group), deployment, provider)]
  }

  function Costed(figures: Figures, key: CostKey, value: int): Figures {
    figures.(actual := figures.actual[key := At(figures.actual, key) + value])
  }

  function CostedBucket(bucket: Bucket, deployment: Name, key: CostKey, value: int): Bucket
    requires deployment in bucket.models
  {
    var model := bucket.models[deployment];
    Bucket(Costed(bucket.figures, key, value),
           bucket.models[deployment := Model(model.provider, Costed(model.figures, key, value))])
  }

  /** One record: added to the group and then to the model; a total that cannot be added is skipped. */
  function WithCost(buckets: Buckets, group: Name, deployment: Name, key: CostKey, total: string): Buckets
    requires group in buckets && deployment in buckets[group].models
  {
    var bucket := buckets[group];
    var model := bucket.models[deployment];
    match AddReportDecimal(bucket.figures.actual, key, total)
    case Err(_) => buckets
    case Ok(actual) =>
      var counted := bucket.(figures := bucket.figures.(actual := actual));
      match AddReportDecimal(model.figures.actual, key, total)
      case Err(_) => buckets[group := counted]
      case Ok(sums) =>
        var summed := Model(model.provider, model.figures.(actual := sums));
        buckets[group := Bucket(counted.figures, bucket.models[deployment := summed])]
  }

  lemma ActualBelowGroup(bucket: Bucket, deployment: Name, key: CostKey)
    requires deployment in bucket.models && Sound(bucket)
    ensures 0 <= At(bucket.models[deployment].figures.actual, key) <= At(bucket.figures.actual, key) <= MAX_INT64
  {
    ModelBelowGroup(bucket, deployment, Name(""));
    InRangeAt(bucket.figures, key);
  }

  lemma WithCostSkipped(buckets: Buckets, group: Name, deployment: Name, key: CostKey, total: string)
    requires group in buckets && deployment in buckets[group].models
    requires AddReportDecimal(buckets[group].figures.actual, key, total).Err?
    ensures WithCost(buckets, group, deployment, key, total) == buckets
  {
    hide AddReportDecimal;
  }

  lemma WithCostAdded(buckets: Buckets, group: Name, deployment: Name, key: CostKey, total: string, value: int)
    requires group in buckets && deployment in buckets[group].models
    requires AddReportDecimal(buckets[group].figures.actual, key, total)
          == Ok(Costed(buckets[group].figures, key, value).actual)
    requires AddReportDecimal(buckets[group].models[deployment].figures.actual, key, total)
          == Ok(Costed(buckets[group].models[deployment].figures, key, value).actual)
    ensures WithCost(buckets, group, deployment, key, total)
         == buckets[group := CostedBucket(buckets[group], deployment, key, value)]
  {
    hide AddReportDecimal, At;
  }

  /** The second addition never fails after the first succeeded. */
  lemma WithCostMeans(buckets: Buckets, group: Name, deployment: Name, key: CostKey, total: string)
    requires group in buckets && deployment in buckets[group].models && Sound(buckets[group]) && Worth(total) >= 0
    ensures WithCost(buckets, group, deployment, key, total)
         == if Readable(total) && At(buckets[group].figures.actual, key) + Worth(total) <= MAX_INT64
            then buckets[group := CostedBucket(buckets[group], deployment, key, Worth(total))]
            else buckets
  {
    hide Readable, Worth, At, AddReportDecimal, Sound, WithCost, CostedBucket;
    var bucket := buckets[group];
    var model := bucket.models[deployment];
    ActualBelowGroup(bucket, deployment, key);
    AddReportDecimalMeans(bucket.figures.actual, key, total);
    AddReportDecimalMeans(model.figures.actual, key, total);
    if AddReportDecimal(bucket.figures.actual, key, total).Ok? {
      WithCostAdded(buckets, group, deployment, key, total, Worth(total));
    } else {
      WithCostSkipped(buckets, group, deployment, key, total);
    }
  }

  lemma CostedMeasure(bucket: Bucket, deployment: Name, key: CostKey, value: int, m: Measure)
    requires deployment in bucket.models
    ensures ModelValues(CostedBucket(bucket, deployment, key, value), m) == ModelValues(bucket, m)
  {
  }

  lemma CostedActual(bucket: Bucket, deployment: Name, key: CostKey, value: int, k: CostKey)
    requires deployment in bucket.models
    ensures Total(ModelActuals(CostedBucket(bucket, deployment, key, value), k))
         == Total(ModelActuals(bucket, k)) + if k == key then value else 0
  {
    var after := CostedBucket(bucket, deployment, key, value);
    var old' := At(bucket.models[deployment].figures.actual, k);
    var new' := old' + if k == key then value else 0;
    assert ModelActuals(after, k) == ModelActuals(bucket, k)[deployment := new'];
    TotalUpdate(ModelActuals(bucket, k), deployment, new');
  }

  lemma CostedSound(bucket: Bucket, deployment: Name, key: CostKey, value: int)
    requires Sound(bucket) && deployment in bucket.models
    requires value >= 0 && At(bucket.figures.actual, key) + value <= MAX_INT64
    ensures Sound(CostedBucket(bucket, deployment, key, value))
  {
    var after := CostedBucket(bucket, deployment, key, value);
    CostedRange(bucket, deployment, key, value);
    hide ModelValues, ModelActuals, Kept, InRange;
    forall m
      ensures Value(after.figures, m) == Kept(m, Total(ModelValues(after, m)))
    {
      assert Value(after.figures, m) == Value(bucket.figures, m);
      CostedMeasure(bucket, deployment, key, value, m);
    }
    hide Value;
    forall k
      ensures At(after.figures.actual, k) == Total(ModelActuals(after, k))
    {
      CostedActual(bucket, deployment, key, value, k);
    }
  }

  lemma CostedRange(bucket: Bucket, deployment: Name, key: CostKey, value: int)
    requires Sound(bucket) && deployment in bucket.models
    requires value >= 0 && At(bucket.figures.actual, key) + value <= MAX_INT64
    ensures InRange(CostedBucket(bucket, deployment, key, value).figures)
    ensures forall d :: d in bucket.models ==> InRange(CostedBucket(bucket, deployment, key, value).models[d].figures)
  {
    hide Balanced;
    ModelBelowGroup(bucket, deployment, Name(""));
    InRangeAt(bucket.figures, key);
  }

  function OpenedBucket(bucket: Bucket, deployment: Name, provider: Name): Bucket {
    bucket.(models := bucket.models[deployment := ModelAt(bucket, deployment, provider)])
  }

  lemma OpenedMeasure(bucket: Bucket, deployment: Name, provider: Name, m: Measure)
    ensures Total(ModelValues(OpenedBucket(bucket, deployment, provider), m)) == Total(ModelValues(bucket, m))
  {
    var after := OpenedBucket(bucket, deployment, provider);
    var value := Value(ModelAt(bucket, deployment, provider).figures, m);
    assert ModelValues(after, m) == ModelValues(bucket, m)[deployment := value];
    TotalUpdate(ModelValues(bucket, m), deployment, value);
  }

  lemma OpenedActual(bucket: Bucket, deployment: Name, provider: Name, key: CostKey)
    ensures Total(ModelActuals(OpenedBucket(bucket, deployment, provider), key)) == Total(ModelActuals(bucket, key))
  {
    var after := OpenedBucket(bucket, deployment, provider);
    var value := At(ModelAt(bucket, deployment, provider).figures.actual, key);
    assert ModelActuals(after, key) == ModelActuals(bucket, key)[deployment := value];
    TotalUpdate(ModelActuals(bucket, key), deployment, value);
  }

  lemma OpenedSound(bucket: Bucket, deployment: Name, provider: Name)
    requires Sound(bucket)
    ensures Sound(OpenedBucket(bucket, deployment, provider))
  {
    hide ModelValues, ModelActuals, Value, Kept;
    var after := OpenedBucket(bucket, deployment, provider);
    forall m
      ensures Total(ModelValues(after, m)) == Total(ModelValues(bucket, m))
    {
      OpenedMeasure(bucket, deployment, provider, m);
    }
    forall key
      ensures Total(ModelActuals(after, key)) == Total(ModelActuals(bucket, key))
    {
      OpenedActual(bucket, deployment, provider, key);
    }
  }

  // ------------------------------------------------ what every step keeps

  ghost predicate AllSound(buckets: Buckets) {
    forall g :: g in buckets ==> Sound(buckets[g])
  }

  predicate SamePublic(a: Figures, b: Figures) {
    a.runs == b.runs && a.input == b.input && a.output == b.output && a.public == b.public
  }

  lemma TallySame(f: Filter, a: Figures, b: Figures, rows: seq<Row>, scope: Scope)
    requires Tally(f, a, rows, scope) && SamePublic(a, b)
    ensures Tally(f, b, rows, scope)
  {
    hide Ids, Sum, Kept;
    forall m
      ensures Value(b, m) == Kept(m, Sum(f, rows, scope, m))
    {
      assert Value(b, m) == Value(a, m);
    }
  }

  lemma TalliedSame(f: Filter, before: Buckets, after: Buckets, rows: seq<Row>)
    requires Tallied(f, before, rows)
    requires forall scope: Scope :: scope.Group? || scope.ModelOf? ==>
               SamePublic(FiguresAt(before, scope), FiguresAt(after, scope))
    ensures Tallied(f, after, rows)
  {
    forall scope: Scope | scope.Group? || scope.ModelOf?
      ensures Tally(f, FiguresAt(after, scope), rows, scope)
    {
      assert SamePublic(FiguresAt(before, scope), FiguresAt(after, scope));
      hide Tally, FiguresAt, SamePublic;
      TallySame(f, FiguresAt(before, scope), FiguresAt(after, scope), rows, scope);
    }
  }

  lemma OpenedFigures(buckets: Buckets, group: Name, deployment: Name, provider: Name, scope: Scope)
    requires scope.Group? || scope.ModelOf?
    ensures FiguresAt(Opened(buckets, group, deployment, provider), scope) == FiguresAt(buckets, scope)
  {
  }

  lemma OpenedGrandTotals(f: Filter, buckets: Buckets, rows: seq<Row>, group: Name, deployment: Name, provider: Name)
    requires GrandTotals(f, buckets, rows)
    ensures GrandTotals(f, Opened(buckets, group, deployment, provider), rows)
  {
    var after := Opened(buckets, group, deployment, provider);
    forall c
      ensures Total(GroupValues(after, Public(c))) == Total(GroupValues(buckets, Public(c)))
    {
      var value := Value(BucketAt(buckets, group).figures, Public(c));
      assert GroupValues(after, Public(c)) == GroupValues(buckets, Public(c))[group := value];
      TotalUpdate(GroupValues(buckets, Public(c)), group, value);
    }
  }

  function CostedAt(buckets: Buckets, group: Name, deployment: Name, key: CostKey, value: int): Buckets
    requires group in buckets && deployment in buckets[group].models
  {
    buckets[group := CostedBucket(buckets[group], deployment, key, value)]
  }

  lemma CostedFigures(buckets: Buckets, group: Name, deployment: Name, key: CostKey, value: int, scope: Scope)
    requires group in buckets && deployment in buckets[group].models && (scope.Group? || scope.ModelOf?)
    ensures FiguresAt(CostedAt(buckets, group, deployment, key, value), scope)
         == if scope == Group(group) || scope == ModelOf(group, deployment)
            then Costed(FiguresAt(buckets, scope), key, value) else FiguresAt(buckets, scope)
  {
    hide Costed;
  }

  lemma CostedGrandTotals(f: Filter, buckets: Buckets, rows: seq<Row>, group: Name, deployment: Name, key: CostKey,
                          value: int)
    requires GrandTotals(f, buckets, rows) && group in buckets && deployment in buckets[group].models
    ensures GrandTotals(f, CostedAt(buckets, group, deployment, key, value), rows)
  {
    var after := CostedAt(buckets, group, deployment, key, value);
    forall c
      ensures Total(GroupValues(after, Public(c))) == Total(GroupValues(buckets, Public(c)))
    {
      assert GroupValues(after, Public(c)) == GroupValues(buckets, Public(c));
    }
  }

  /** The groups are the naive group-by of the runs and of the costs, and every group shows what its models show. */
  ghost predicate Consistent(f: Filter, buckets: Buckets, rows: seq<Row>, entries: seq<Entry>) {
    Tallied(f, buckets, rows) && GrandTotals(f, buckets, rows) && AllSound(buckets) && CostsTallied(f, buckets, entries)
  }

  lemma CostsTalliedSame(f: Filter, before: Buckets, after: Buckets, entries: seq<Entry>)
    requires CostsTallied(f, before, entries)
    requires forall scope: Scope :: scope.Group? || scope.ModelOf? ==>
               FiguresAt(after, scope).actual == FiguresAt(before, scope).actual
    ensures CostsTallied(f, after, entries)
  {
    forall g, d, key
      ensures CostTally(f, after, entries, g, d, key)
    {
      assert CostTally(f, before, entries, g, d, key);
      assert FiguresAt(after, Group(g)).actual == FiguresAt(before, Group(g)).actual;
      assert FiguresAt(after, ModelOf(g, d)).actual == FiguresAt(before, ModelOf(g, d)).actual;
      hide FiguresAt, CostTotal, CostShare;
    }
  }

  lemma ConsistentOpened(f: Filter, buckets: Buckets, rows: seq<Row>, entries: seq<Entry>, group: Name,
                         deployment: Name, provider: Name)
    requires Consistent(f, buckets, rows, entries)
    ensures Consistent(f, Opened(buckets, group, deployment, provider), rows, entries)
  {
    var after := Opened(buckets, group, deployment, provider);
    forall scope: Scope | scope.Group? || scope.ModelOf?
      ensures FiguresAt(after, scope) == FiguresAt(buckets, scope)
    {
      OpenedFigures(buckets, group, deployment, provider, scope);
    }
    OpenedGrandTotals(f, buckets, rows, group, deployment, provider);
    NothingSound();
    OpenedSound(BucketAt(buckets, group), deployment, provider);
    hide Tallied, GrandTotals, CostsTallied, Sound, FiguresAt, OpenedBucket;
    TalliedSame(f, buckets, after, rows);
    CostsTalliedSame(f, buckets, after, entries);
  }

  /** One more cost record that is not counted anywhere. */
  lemma CostUncounted(f: Filter, buckets: Buckets, entries: seq<Entry>, e: Entry)
    requires CostsTallied(f, buckets, entries)
    requires RunMatches(f, e.client, e.provider) ==>
      !Fits(At(FiguresAt(buckets, Group(GroupId(f, e.client, e.provider))).actual, CostKeyOf(e)), e)
    ensures CostsTallied(f, buckets, entries + [e])
  {
    hide Fits, RunMatches, FiguresAt, CostTotal, CostShare;
    forall g, d, key
      ensures CostTally(f, buckets, entries + [e], g, d, key)
    {
      assert CostTally(f, buckets, entries, g, d, key);
      CostTotalMore(f, entries, e, g, d, key);
    }
  }

  lemma CostCountedAt(f: Filter, buckets: Buckets, entries: seq<Entry>, e: Entry, group: Name, g: Name, d: Name,
                      key: CostKey)
    requires CostTally(f, buckets, entries, g, d, key)
    requires RunMatches(f, e.client, e.provider) && group == GroupId(f, e.client, e.provider)
    requires group in buckets && e.deployment in buckets[group].models
    requires Fits(CostTotal(f, entries, group, CostKeyOf(e)), e)
    ensures CostTally(f, CostedAt(buckets, group, e.deployment, CostKeyOf(e), Worth(e.total)), entries + [e], g, d, key)
  {
    hide Fits, Worth, RunMatches, GroupId, FiguresAt, CostTotal, CostShare, CostedAt;
    CostTotalMore(f, entries, e, g, d, key);
    CostedFigures(buckets, group, e.deployment, CostKeyOf(e), Worth(e.total), Group(g));
    CostedFigures(buckets, group, e.deployment, CostKeyOf(e), Worth(e.total), ModelOf(g, d));
  }

  lemma CostCounted(f: Filter, buckets: Buckets, entries: seq<Entry>, e: Entry)
    requires CostsTallied(f, buckets, entries) && RunMatches(f, e.client, e.provider)
    requires var g := GroupId(f, e.client, e.provider); g in buckets && e.deployment in buckets[g].models
    requires Fits(At(FiguresAt(buckets, Group(GroupId(f, e.client, e.provider))).actual, CostKeyOf(e)), e)
    ensures var g := GroupId(f, e.client, e.provider);
            CostsTallied(f, CostedAt(buckets, g, e.deployment, CostKeyOf(e), Worth(e.total)), entries + [e])
  {
    var group := GroupId(f, e.client, e.provider);
    assert CostTally(f, buckets, entries, group, e.deployment, CostKeyOf(e));
    hide Fits, Worth, RunMatches, GroupId, FiguresAt, CostTotal, CostShare, CostedAt, CostTally;
    forall g, d, key
      ensures CostTally(f, CostedAt(buckets, group, e.deployment, CostKeyOf(e), Worth(e.total)), entries + [e], g, d,
                        key)
    {
      CostCountedAt(f, buckets, entries, e, group, g, d, key);
    }
  }

  lemma ConsistentCost(f: Filter, buckets: Buckets, rows: seq<Row>, entries: seq<Entry>, e: Entry)
    requires Consistent(f, buckets, rows, entries) && Worth(e.total) >= 0 && RunMatches(f, e.client, e.provider)
    requires var g := GroupId(f, e.client, e.provider); g in buckets && e.deployment in buckets[g].models
    ensures var g := GroupId(f, e.client, e.provider);
            Consistent(f, WithCost(buckets, g, e.deployment, CostKeyOf(e), e.total), rows, entries + [e])
  {
    var g, key, v := GroupId(f, e.client, e.provider), CostKeyOf(e), Worth(e.total);
    WithCostMeans(buckets, g, e.deployment, key, e.total);
    hide Tallied, GrandTotals, CostsTallied, Sound, WithCost, Worth, Readable, RunMatches, At;
    if Readable(e.total) && At(buckets[g].figures.actual, key) + v <= MAX_INT64 {
      CostCounted(f, buckets, entries, e);
      CostedSound(buckets[g], e.deployment, key, v);
      CostedGrandTotals(f, buckets, rows, g, e.deployment, key, v);
      CostedTallied(f, buckets, rows, g, e.deployment, key, v);
    } else {
      CostUncounted(f, buckets, entries, e);
    }
  }

  lemma CostedTallied(f: Filter, buckets: Buckets, rows: seq<Row>, group: Name, deployment: Name, key: CostKey,
                      value: int)
    requires Tallied(f, buckets, rows) && group in buckets && deployment in buckets[group].models
    ensures Tallied(f, CostedAt(buckets, group, deployment, key, value), rows)
  {
    var after := CostedAt(buckets, group, deployment, key, value);
    forall scope: Scope | scope.Group? || scope.ModelOf?
      ensures SamePublic(FiguresAt(buckets, scope), FiguresAt(after, scope))
    {
      CostedFigures(buckets, group, deployment, key, value, scope);
      hide FiguresAt, CostedAt;
    }
    hide Tallied, CostedAt, FiguresAt, SamePublic;
    TalliedSame(f, buckets, after, rows);
  }

  /** The public total of the row's group leaves room for the row. */
  predicate RowFits(f: Filter, buckets: Buckets, row: Row) {
    && Readable(row.total)
    && At(BucketAt(buckets, GroupOf(f, row)).figures.public, row.currency) + Worth(row.total) <= MAX_INT64
  }

  lemma EnteredRange(figures: Figures, row: Row)
    requires InRange(figures) && 0 <= Worth(row.total)
    requires At(figures.public, row.currency) + Worth(row.total) <= MAX_INT64
    ensures InRange(Entered(figures, row))
  {
    hide Worth;
  }

  lemma PostedSound(f: Filter, buckets: Buckets, rows: seq<Row>, row: Row)
    requires Tallied(f, buckets, rows) && NewRun(rows, row) && AllSound(buckets)
    requires Worth(row.total) >= 0 && RowFits(f, buckets, row)
    ensures AllSound(Posted(f, buckets, row))
  {
    hide Balanced, Entered, Tallied, Worth;
    var group := GroupOf(f, row);
    var bucket := BucketAt(buckets, group);
    var model := ModelAt(bucket, row.deployment, ProviderOf(f, row.deployment));
    NothingSound();
    NewToGroup(f, buckets, rows, row);
    ModelBelowGroup(bucket, row.deployment, ProviderOf(f, row.deployment));
    assert InRange(model.figures);
    EnteredRange(bucket.figures, row);
    EnteredRange(model.figures, row);
    PostedBalanced(bucket, row.deployment, model, row);
    hide InRange, RowFits;
  }

  lemma PostedCosts(f: Filter, buckets: Buckets, entries: seq<Entry>, row: Row)
    requires CostsTallied(f, buckets, entries) && Matches(f, row)
    ensures CostsTallied(f, Posted(f, buckets, row), entries)
  {
    var after := Posted(f, buckets, row);
    forall scope: Scope | scope.Group? || scope.ModelOf?
      ensures FiguresAt(after, scope).actual == FiguresAt(buckets, scope).actual
    {
      hide InScope, FiguresAt, Posted, Matches, Worth, At;
      PostedFigures(f, buckets, row, scope);
    }
    hide FiguresAt, Posted, CostsTallied, Matches;
    CostsTalliedSame(f, buckets, after, entries);
  }

  lemma ConsistentRow(f: Filter, buckets: Buckets, rows: seq<Row>, entries: seq<Entry>, row: Row)
    requires Consistent(f, buckets, rows, entries) && NewRun(rows, row) && Worth(row.total) >= 0
    requires Matches(f, row) ==> RowFits(f, buckets, row)
    ensures Consistent(f, if Matches(f, row) then Posted(f, buckets, row) else buckets, rows + [row], entries)
  {
    hide Tallied, GrandTotals, CostsTallied, AllSound, RowFits, Matches, Posted, NewRun, Worth;
    TalliedMore(f, buckets, rows, row);
    GrandTotalsMore(f, buckets, rows, row);
    if Matches(f, row) {
      PostedSound(f, buckets, rows, row);
      PostedCosts(f, buckets, entries, row);
    }
  }

  ghost function EntriesOf(row: CostRow): seq<Entry> {
    if row.records.None? then []
    else seq(|row.records.value|, i requires 0 <= i < |row.records.value| => EntryOf(row, row.records.value[i]))
  }

  function EntryOf(row: CostRow, record: CostRecord): Entry {
    Entry(row.client, row.deployment, row.provider, record.unit, record.source, record.total)
  }

  /** Each cost record is attributed to the client, deployment and provider of its row. */
  lemma EntriesExactly(row: CostRow, i: nat)
    requires row.records.Some? && i < |row.records.value|
    ensures |EntriesOf(row)| == |row.records.value|
    ensures var e, record := EntriesOf(row)[i], row.records.value[i];
            && e.client == row.client && e.deployment == row.deployment && e.provider == row.provider
            && e.unit == record.unit && e.source == record.source && e.total == record.total
  {
  }

  ghost predicate CostsNotNegative(entries: seq<Entry>) {
    forall i :: 0 <= i < |entries| ==> Worth(entries[i].total) >= 0
  }

  /** Answers of other clients and providers count for nothing. */
  lemma {:induction false} CostsOutside(f: Filter, buckets: Buckets, entries: seq<Entry>, more: seq<Entry>)
    requires CostsTallied(f, buckets, entries) && CostsNotNegative(more)
    requires forall i :: 0 <= i < |more| ==> !RunMatches(f, more[i].client, more[i].provider)
    ensures CostsTallied(f, buckets, entries + more)
  {
    if more == [] {
      assert entries + more == entries;
    } else {
      var last := |more| - 1;
      CostsOutside(f, buckets, entries, more[..last]);
      CostUncounted(f, buckets, entries + more[..last], more[last]);
      assert entries + more == entries + more[..last] + [more[last]];
    }
  }

  // ------------------------------------------------ which groups and models there are

  /** A model inside a group. */
  datatype Part = Part(group: Name, deployment: Name)

  ghost predicate Has(buckets: Buckets, part: Part) {
    part.group in buckets && part.deployment in buckets[part.group].models
  }

  /** The parts are exactly these, and no group is empty. */
  ghost predicate PartsAre(buckets: Buckets, parts: set<Part>) {
    && (forall part :: Has(buckets, part) <==> part in parts)
    && (forall g :: g in buckets ==> buckets[g].models != map[])
  }

  ghost function RowParts(f: Filter, rows: seq<Row>): set<Part> {
    set i | 0 <= i < |rows| && Matches(f, rows[i]) :: Part(GroupOf(f, rows[i]), rows[i].deployment)
  }

  ghost function CostParts(f: Filter, costRows: seq<CostRow>): set<Part> {
    set i | 0 <= i < |costRows| && RunMatches(f, costRows[i].client, costRows[i].provider) ::
      Part(GroupId(f, costRows[i].client, costRows[i].provider), costRows[i].deployment)
  }

  lemma RowPartsMore(f: Filter, rows: seq<Row>, row: Row)
    ensures RowParts(f, rows + [row])
         == if Matches(f, row) then RowParts(f, rows) + {Part(GroupOf(f, row), row.deployment)} else RowParts(f, rows)
  {
    hide Matches, GroupOf;
    assert (rows + [row])[|rows|] == row;
    assert forall i :: 0 <= i < |rows| ==> (rows + [row])[i] == rows[i];
  }

  lemma CostPartsMore(f: Filter, costRows: seq<CostRow>, row: CostRow)
    ensures CostParts(f, costRows + [row])
         == CostParts(f, costRows) + if RunMatches(f, row.client, row.provider)
                                     then {Part(GroupId(f, row.client, row.provider), row.deployment)} else {}
  {
    hide RunMatches, GroupId;
    assert (costRows + [row])[|costRows|] == row;
    assert forall i :: 0 <= i < |costRows| ==> (costRows + [row])[i] == costRows[i];
  }

  lemma PostedParts(f: Filter, buckets: Buckets, row: Row, parts: set<Part>)
    requires PartsAre(buckets, parts)
    ensures PartsAre(Posted(f, buckets, row), parts + {Part(GroupOf(f, row), row.deployment)})
  {
    hide Entered, ProviderOf, GroupOf;
    var after, part := Posted(f, buckets, row), Part(GroupOf(f, row), row.deployment);
    assert row.deployment in after[part.group].models;
    forall p
      ensures Has(after, p) <==> Has(buckets, p) || p == part
    {
    }
  }

  lemma OpenedParts(buckets: Buckets, group: Name, deployment: Name, provider: Name, parts: set<Part>)
    requires PartsAre(buckets, parts)
    ensures PartsAre(Opened(buckets, group, deployment, provider), parts + {Part(group, deployment)})
  {
    var after, part := Opened(buckets, group, deployment, provider), Part(group, deployment);
    assert deployment in after[group].models;
    forall p
      ensures Has(after, p) <==> Has(buckets, p) || p == part
    {
    }
  }

  lemma WithCostParts(buckets: Buckets, group: Name, deployment: Name, key: CostKey, total: string, parts: set<Part>)
    requires group in buckets && deployment in buckets[group].models && PartsAre(buckets, parts)
    ensures PartsAre(WithCost(buckets, group, deployment, key, total), parts)
  {
    hide AddReportDecimal;
    var after := WithCost(buckets, group, deployment, key, total);
    assert after.Keys == buckets.Keys;
    assert forall g :: g in buckets ==> after[g].models.Keys == buckets[g].models.Keys;
    forall p
      ensures Has(after, p) <==> Has(buckets, p)
    {
    }
    forall g | g in after
      ensures after[g].models != map[]
    {
      assert after[g].models.Keys != {};
    }
  }
}
