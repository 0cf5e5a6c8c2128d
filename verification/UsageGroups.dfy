/** Runs grouped by client or provider and, inside a group, by model: the figures are sums over rows, and a group shows
    what its models show together. */
module UsageGroups {
  import opened Decimal
  import opened Names
  import opened Sums
  import opened UsageRows

  /** Token counters are 64 bits wide. */
  function Kept(m: Measure, x: int): int {
    if m.Input? || m.Output? then Wrap64(x) else x
  }

  function Value(figures: Figures, m: Measure): int {
    match m
    case Runs => |figures.runs|
    case Input => figures.input
    case Output => figures.output
    case Public(c) => At(figures.public, c)
  }

  function RunOf(row: Row): Name {
    row.run
  }

  function CurrencyOf(row: Row): Name {
    row.currency
  }

  /** The values some property of the rows of a scope takes. */
  ghost function Ids(f: Filter, rows: seq<Row>, scope: Scope, of: Row -> Name): set<Name> {
    set i | 0 <= i < |rows| && InScope(f, rows[i], scope) :: of(rows[i])
  }

  ghost predicate TallyAmounts(f: Filter, figures: Figures, rows: seq<Row>, scope: Scope) {
    forall m :: Value(figures, m) == Kept(m, Sum(f, rows, scope, m))
  }

  /** The figures are the sums over the rows of their scope. */
  ghost predicate Tally(f: Filter, figures: Figures, rows: seq<Row>, scope: Scope) {
    && TallyAmounts(f, figures, rows, scope)
    && figures.runs == Ids(f, rows, scope, RunOf)
    && figures.public.Keys == Ids(f, rows, scope, CurrencyOf)
  }

  /** Figures after one more run. */
  function Entered(figures: Figures, row: Row): Figures {
    figures.(runs := figures.runs + {row.run},
             input := Wrap64(figures.input + row.input),
             output := Wrap64(figures.output + row.output),
             public := figures.public[row.currency := At(figures.public, row.currency) + Worth(row.total)])
  }

  lemma KeptSum(m: Measure, total: int, part: int, more: int)
    ensures Kept(m, Kept(m, total) + more) == Kept(m, total + more)
    ensures Kept(m, total - part + Kept(m, part + more)) == Kept(m, total + more)
  {
    WrapSum(total, more);
    WrapSum(part + more, total - part);
  }

  ghost predicate NewRun(rows: seq<Row>, row: Row) {
    forall i :: 0 <= i < |rows| ==> rows[i].run != row.run
  }

  lemma OneMoreRun(runs: set<Name>, run: Name)
    requires run !in runs
    ensures |runs + {run}| == |runs| + 1
  {
  }

  lemma EnteredValue(figures: Figures, row: Row, m: Measure)
    requires row.run !in figures.runs
    ensures Value(Entered(figures, row), m) == Kept(m, Value(figures, m) + Contribution(row, m))
  {
    hide Wrap64, Worth;
    OneMoreRun(figures.runs, row.run);
  }

  lemma IdsMore(f: Filter, rows: seq<Row>, row: Row, scope: Scope, of: Row -> Name)
    ensures Ids(f, rows + [row], scope, of)
         == Ids(f, rows, scope, of) + if InScope(f, row, scope) then {of(row)} else {}
  {
    var all := rows + [row];
    hide InScope;
    assert all[|rows|] == row;
    assert forall i :: 0 <= i < |rows| ==> all[i] == rows[i];
  }

  lemma AmountsIn(f: Filter, figures: Figures, rows: seq<Row>, row: Row, scope: Scope)
    requires TallyAmounts(f, figures, rows, scope) && InScope(f, row, scope) && row.run !in figures.runs
    ensures TallyAmounts(f, Entered(figures, row), rows + [row], scope)
  {
    forall m
      ensures Value(Entered(figures, row), m) == Kept(m, Sum(f, rows + [row], scope, m))
    {
      SumMore(f, rows, row, scope, m);
      EnteredValue(figures, row, m);
      hide Sum, InScope, Contribution, Value, Entered, Kept;
      KeptSum(m, Sum(f, rows, scope, m), 0, Contribution(row, m));
    }
  }

  lemma TallyIn(f: Filter, figures: Figures, rows: seq<Row>, row: Row, scope: Scope)
    requires Tally(f, figures, rows, scope) && InScope(f, row, scope) && NewRun(rows, row)
    ensures Tally(f, Entered(figures, row), rows + [row], scope)
  {
    assert row.run !in figures.runs by {
      hide InScope, TallyAmounts;
    }
    AmountsIn(f, figures, rows, row, scope);
    IdsMore(f, rows, row, scope, RunOf);
    IdsMore(f, rows, row, scope, CurrencyOf);
    hide Ids, TallyAmounts, InScope, Worth;
  }

  lemma TallyOut(f: Filter, figures: Figures, rows: seq<Row>, row: Row, scope: Scope)
    requires Tally(f, figures, rows, scope) && !InScope(f, row, scope)
    ensures Tally(f, figures, rows + [row], scope)
  {
    forall m
      ensures Sum(f, rows + [row], scope, m) == Sum(f, rows, scope, m)
    {
      hide InScope, Ids, Value;
      SumMore(f, rows, row, scope, m);
    }
    hide InScope, Ids, Sum, Value, Kept;
    IdsMore(f, rows, row, scope, RunOf);
    IdsMore(f, rows, row, scope, CurrencyOf);
  }

  // ------------------------------------------------ groups and models

  function BucketAt(buckets: Buckets, group: Name): Bucket {
    if group in buckets then buckets[group] else Bucket(NOTHING, map[])
  }

  function ModelAt(bucket: Bucket, deployment: Name, provider: Name): Model {
    if deployment in bucket.models then bucket.models[deployment] else Model(provider, NOTHING)
  }

  function FiguresAt(buckets: Buckets, scope: Scope): Figures {
    match scope
    case Group(g) => BucketAt(buckets, g).figures
    case ModelOf(g, d) => ModelAt(BucketAt(buckets, g), d, Name("")).figures
    case _ => NOTHING
  }

  /** The report is the naive group-by: absent groups and models have no rows. */
  ghost predicate Tallied(f: Filter, buckets: Buckets, rows: seq<Row>) {
    forall scope: Scope :: scope.Group? || scope.ModelOf? ==> Tally(f, FiguresAt(buckets, scope), rows, scope)
  }

  function Posted(f: Filter, buckets: Buckets, row: Row): Buckets {
    var group, provider := GroupOf(f, row), ProviderOf(f, row.deployment);
    var bucket := BucketAt(buckets, group);
    var model := ModelAt(bucket, row.deployment, provider);
    buckets[group := PostedBucket(bucket, row.deployment, model, row)]
  }

  lemma PostedFigures(f: Filter, buckets: Buckets, row: Row, scope: Scope)
    requires Matches(f, row) && (scope.Group? || scope.ModelOf?)
    ensures InScope(f, row, scope) ==>
              FiguresAt(Posted(f, buckets, row), scope) == Entered(FiguresAt(buckets, scope), row)
    ensures !InScope(f, row, scope) ==> FiguresAt(Posted(f, buckets, row), scope) == FiguresAt(buckets, scope)
  {
    hide Entered, Matches;
  }

  lemma TalliedMore(f: Filter, buckets: Buckets, rows: seq<Row>, row: Row)
    requires Tallied(f, buckets, rows) && NewRun(rows, row)
    ensures Tallied(f, if Matches(f, row) then Posted(f, buckets, row) else buckets, rows + [row])
  {
    var after := if Matches(f, row) then Posted(f, buckets, row) else buckets;
    forall scope: Scope | scope.Group? || scope.ModelOf?
      ensures Tally(f, FiguresAt(after, scope), rows + [row], scope)
    {
      hide Tally, FiguresAt, Posted, Entered;
      if InScope(f, row, scope) {
        TallyIn(f, FiguresAt(buckets, scope), rows, row, scope);
      } else {
        TallyOut(f, FiguresAt(buckets, scope), rows, row, scope);
      }
      if Matches(f, row) {
        PostedFigures(f, buckets, row, scope);
      }
    }
  }

  ghost function ModelValues(bucket: Bucket, m: Measure): map<Name, int> {
    map d | d in bucket.models :: Value(bucket.models[d].figures, m)
  }

  ghost function ModelActuals(bucket: Bucket, key: CostKey): map<Name, int> {
    map d | d in bucket.models :: At(bucket.models[d].figures.actual, key)
  }

  /** What a group shows is what its models show together. */
  ghost predicate Balanced(bucket: Bucket) {
    && (forall m :: Value(bucket.figures, m) == Kept(m, Total(ModelValues(bucket, m))))
    && (forall key :: At(bucket.figures.actual, key) == Total(ModelActuals(bucket, key)))
    && (forall d, id :: d in bucket.models && id in bucket.models[d].figures.runs ==> id in bucket.figures.runs)
  }

  predicate InRange(figures: Figures) {
    && (forall c :: c in figures.public ==> 0 <= figures.public[c] <= MAX_INT64)
    && (forall key :: key in figures.actual ==> 0 <= figures.actual[key] <= MAX_INT64)
  }

  lemma InRangeAt(figures: Figures, key: CostKey)
    requires InRange(figures)
    ensures 0 <= At(figures.actual, key) <= MAX_INT64
  {
  }

  ghost predicate Sound(bucket: Bucket) {
    Balanced(bucket) && InRange(bucket.figures) && forall d :: d in bucket.models ==> InRange(bucket.models[d].figures)
  }

  lemma NothingSound()
    ensures Sound(Bucket(NOTHING, map[]))
  {
    var b := Bucket(NOTHING, map[]);
    forall m
      ensures Total(ModelValues(b, m)) == 0
    {
      assert ModelValues(b, m) == map[];
    }
    forall key
      ensures Total(ModelActuals(b, key)) == 0
    {
      assert ModelActuals(b, key) == map[];
    }
  }

  function PostedBucket(bucket: Bucket, deployment: Name, model: Model, row: Row): Bucket {
    var posted := Model(model.provider, Entered(model.figures, row));
    Bucket(Entered(bucket.figures, row), bucket.models[deployment := posted])
  }

  lemma PostedValues(bucket: Bucket, deployment: Name, model: Model, row: Row, m: Measure)
    requires model == ModelAt(bucket, deployment, model.provider)
    ensures ModelValues(PostedBucket(bucket, deployment, model, row), m)
         == ModelValues(bucket, m)[deployment := Value(Entered(model.figures, row), m)]
    ensures At(ModelValues(bucket, m), deployment) == Value(model.figures, m)
  {
    hide Entered;
  }

  lemma PostedMeasure(bucket: Bucket, deployment: Name, model: Model, row: Row, m: Measure)
    requires Value(bucket.figures, m) == Kept(m, Total(ModelValues(bucket, m)))
    requires row.run !in bucket.figures.runs && row.run !in model.figures.runs
    requires model == ModelAt(bucket, deployment, model.provider)
    ensures Value(Entered(bucket.figures, row), m)
         == Kept(m, Total(ModelValues(PostedBucket(bucket, deployment, model, row), m)))
  {
    hide *;
    EnteredValue(bucket.figures, row, m);
    EnteredValue(model.figures, row, m);
    PostedValues(bucket, deployment, model, row, m);
    TotalUpdate(ModelValues(bucket, m), deployment, Value(Entered(model.figures, row), m));
    KeptSum(m, Total(ModelValues(bucket, m)), Value(model.figures, m), Contribution(row, m));
  }

  lemma PostedActual(bucket: Bucket, deployment: Name, model: Model, row: Row, key: CostKey)
    requires model == ModelAt(bucket, deployment, model.provider)
    ensures Total(ModelActuals(PostedBucket(bucket, deployment, model, row), key)) == Total(ModelActuals(bucket, key))
  {
    var after := PostedBucket(bucket, deployment, model, row);
    hide Worth;
    assert ModelActuals(after, key) == ModelActuals(bucket, key)[deployment := At(model.figures.actual, key)];
    TotalUpdate(ModelActuals(bucket, key), deployment, At(model.figures.actual, key));
  }

  lemma PostedBalanced(bucket: Bucket, deployment: Name, model: Model, row: Row)
    requires Balanced(bucket) && row.run !in bucket.figures.runs
    requires model == ModelAt(bucket, deployment, model.provider)
    ensures Balanced(PostedBucket(bucket, deployment, model, row))
  {
    var after := PostedBucket(bucket, deployment, model, row);
    hide ModelValues, ModelActuals, Kept, Value, Worth;
    assert row.run !in model.figures.runs;
    forall m
      ensures Value(after.figures, m) == Kept(m, Total(ModelValues(after, m)))
    {
      PostedMeasure(bucket, deployment, model, row, m);
    }
    forall key
      ensures At(after.figures.actual, key) == Total(ModelActuals(after, key))
    {
      PostedActual(bucket, deployment, model, row, key);
    }
  }

  /** A model never exceeds its group. */
  lemma ModelBelowGroup(bucket: Bucket, deployment: Name, provider: Name)
    requires Sound(bucket)
    ensures forall c :: 0 <= At(ModelAt(bucket, deployment, provider).figures.public, c) <= At(bucket.figures.public, c)
    ensures forall key :: 0 <= At(ModelAt(bucket, deployment, provider).figures.actual,
                                  key) <= At(bucket.figures.actual, key)
  {
    var model := ModelAt(bucket, deployment, provider).figures;
    forall c
      ensures 0 <= At(model.public, c) <= At(bucket.figures.public, c)
    {
      var m := Public(c);
      assert Value(bucket.figures, m) == Total(ModelValues(bucket, m));
      TotalAtLeast(ModelValues(bucket, m), deployment);
    }
    forall key
      ensures 0 <= At(model.actual, key) <= At(bucket.figures.actual, key)
    {
      TotalAtLeast(ModelActuals(bucket, key), deployment);
    }
  }

  ghost function GroupValues(buckets: Buckets, m: Measure): map<Name, int> {
    map g | g in buckets :: Value(buckets[g].figures, m)
  }

  lemma PostedGroupValues(f: Filter, buckets: Buckets, row: Row, m: Measure)
    ensures var group := GroupOf(f, row);
            GroupValues(Posted(f, buckets, row), m)
            == GroupValues(buckets, m)[group := Value(Entered(BucketAt(buckets, group).figures, row), m)]
    ensures At(GroupValues(buckets, m), GroupOf(f, row)) == Value(BucketAt(buckets, GroupOf(f, row)).figures, m)
  {
    hide Entered;
  }

  /** All groups together hold what all matching rows hold together. */
  ghost predicate GrandTotals(f: Filter, buckets: Buckets, rows: seq<Row>) {
    forall c :: Total(GroupValues(buckets, Public(c))) == Sum(f, rows, Everything, Public(c))
  }

  lemma GrandTotalsMore(f: Filter, buckets: Buckets, rows: seq<Row>, row: Row)
    requires GrandTotals(f, buckets, rows) && Tallied(f, buckets, rows) && NewRun(rows, row)
    ensures GrandTotals(f, if Matches(f, row) then Posted(f, buckets, row) else buckets, rows + [row])
  {
    forall c
      ensures Total(GroupValues(if Matches(f, row) then Posted(f, buckets, row) else buckets, Public(c)))
           == Sum(f, rows + [row], Everything, Public(c))
    {
      var m := Public(c);
      SumMore(f, rows, row, Everything, m);
      if Matches(f, row) {
        var figures := BucketAt(buckets, GroupOf(f, row)).figures;
        NewToGroup(f, buckets, rows, row);
        EnteredValue(figures, row, m);
        PostedGroupValues(f, buckets, row, m);
        hide Posted, Entered, GroupValues, Sum, Tallied, Contribution;
        TotalUpdate(GroupValues(buckets, m), GroupOf(f, row), Value(Entered(figures, row), m));
      }
    }
  }

  /** A run that was not seen yet is in no figures. */
  lemma NewToGroup(f: Filter, buckets: Buckets, rows: seq<Row>, row: Row)
    requires Tallied(f, buckets, rows) && NewRun(rows, row)
    ensures row.run !in BucketAt(buckets, GroupOf(f, row)).figures.runs
  {
    var scope := Group(GroupOf(f, row));
    assert Tally(f, FiguresAt(buckets, scope), rows, scope);
    hide TallyAmounts, InScope;
  }

  lemma GroupAmount(f: Filter, buckets: Buckets, rows: seq<Row>, row: Row)
    requires Tallied(f, buckets, rows)
    ensures At(BucketAt(buckets, GroupOf(f, row)).figures.public, row.currency)
         == Sum(f, rows, Group(GroupOf(f, row)), Public(row.currency))
  {
    var scope, m := Group(GroupOf(f, row)), Public(row.currency);
    assert Tally(f, FiguresAt(buckets, scope), rows, scope);
    assert Value(FiguresAt(buckets, scope), m) == Kept(m, Sum(f, rows, scope, m));
  }
}
