/**
  Who owns a provider adapter. Every reload or update builds a new snapshot that may share adapters with the old
  one; adapters that hold processes must be retired once when nothing uses them any more.
*/
module RuntimeManager {
  import opened Names
  import opened Wrappers

  datatype Kind = OpenAiResponses | CodexExec | WorkbuddyExec | UnknownKind

  /**
    `runtime` stands for the compared fields of an executable provider, `endpoint` for those of an HTTP provider
    apart from its key.
  */
  datatype ProviderConfig = ProviderConfig(id: Name, kind: Kind, runtime: string, endpoint: string, apiKey: string)

  /** A built adapter is a pointer; `retirable` ones hold processes. The placeholder is a plain value. */
  datatype Adapter = Built(pointer: nat, retirable: bool) | Unavailable

  type Adapters = map<Name, Adapter>

  datatype Snapshot = Snapshot(providers: seq<ProviderConfig>, adapters: Adapters)

  predicate SameRuntime(left: ProviderConfig, right: ProviderConfig) {
    && left.id == right.id && left.kind == right.kind
    && match left.kind
       case OpenAiResponses => left.endpoint == right.endpoint && left.apiKey == right.apiKey
       case CodexExec => left.runtime == right.runtime
       case WorkbuddyExec => left.runtime == right.runtime
       case UnknownKind => false
  }

  function Lookup(adapters: Adapters, id: Name): Option<Adapter> {
    if id in adapters then Some(adapters[id]) else None
  }

  function AdaptersOf(s: Option<Snapshot>): Adapters {
    if s.Some? then s.value.adapters else map[]
  }

  /** The adapter of a provider whose compared fields did not change. */
  function Reusable(s: Option<Snapshot>, candidate: ProviderConfig): Option<Adapter> {
    if s.Some? && exists p :: p in s.value.providers && SameRuntime(p, candidate)
    then Lookup(s.value.adapters, candidate.id) else None
  }

  /** The same object; the placeholder is never the same as anything. */
  predicate Keeps(keep: Adapters, id: Name, adapter: Adapter) {
    adapter.Built? && Lookup(keep, id) == Some(adapter)
  }

  // ------------------------------------------------ ownership

  /** The adapter under `id` is pointer `p` and holds processes. */
  predicate OwnedAt(adapters: Adapters, id: Name, p: nat) {
    id in adapters && adapters[id] == Built(p, true)
  }

  ghost function Owned(adapters: Adapters): set<nat> {
    set id | id in adapters && adapters[id].Built? && adapters[id].retirable :: adapters[id].pointer
  }

  lemma OwnedMeans(adapters: Adapters)
    ensures forall p :: p in Owned(adapters) <==> exists id :: OwnedAt(adapters, id, p)
  {
    forall p | p in Owned(adapters)
      ensures exists id :: OwnedAt(adapters, id, p)
    {
      var id :| id in adapters && adapters[id].Built? && adapters[id].retirable && adapters[id].pointer == p;
      assert OwnedAt(adapters, id, p);
    }
  }

  lemma NotOwned(adapters: Adapters, p: nat)
    requires forall id :: !OwnedAt(adapters, id, p)
    ensures p !in Owned(adapters)
  {
    OwnedMeans(adapters);
  }

  /** No adapter serves two providers. */
  ghost predicate Exclusive(adapters: Adapters) {
    forall i, j :: i in adapters && j in adapters && adapters[i].Built? && adapters[i] == adapters[j] ==> i == j
  }

  /** What was built, which of it holds processes, and every call of Retire. */
  datatype Ledger = Ledger(built: nat, retirables: set<nat>, retired: multiset<nat>)

  /** Adapters are either in use and never retired, or not in use and retired exactly once. */
  ghost predicate Accounted(l: Ledger, inUse: set<nat>) {
    && (forall p :: p in l.retirables ==> p < l.built)
    && (forall p :: p in l.retired ==> p in l.retirables)
    && inUse <= l.retirables
    && (forall p :: p in l.retirables ==> l.retired[p] == if p in inUse then 0 else 1)
  }

  /** A snapshot refers to existing adapters only, each under one provider. */
  ghost predicate Sane(l: Ledger, adapters: Adapters) {
    && Exclusive(adapters)
    && (forall id :: id in adapters && adapters[id].Built? ==>
          adapters[id].pointer < l.built && (adapters[id].retirable <==> adapters[id].pointer in l.retirables))
  }

  /** Retire was called once on each of these and on nothing else. */
  ghost predicate RetiredOnce(before: multiset<nat>, after: multiset<nat>, gone: set<nat>) {
    forall p :: after[p] == before[p] + if p in gone then 1 else 0
  }

  lemma RetiredMore(before: multiset<nat>, after: multiset<nat>, gone: set<nat>, p: nat)
    requires RetiredOnce(before, after, gone) && p !in gone
    ensures RetiredOnce(before, after + multiset{p}, gone + {p})
  {
  }

  /** Retiring what is in use takes it out of use. */
  lemma RetireSome(l: Ledger, after: multiset<nat>, inUse: set<nat>, gone: set<nat>)
    requires Accounted(l, inUse) && gone <= inUse && RetiredOnce(l.retired, after, gone)
    ensures Accounted(l.(retired := after), inUse - gone)
  {
    forall p | p in after
      ensures p in l.retirables
    {
      assert p in l.retired || p in gone;
    }
  }

  /** Adapters older than `first` sit under the provider they served before. */
  ghost predicate DerivedFrom(adapters: Adapters, base: Adapters, first: nat) {
    forall id :: id in adapters && adapters[id].Built? && adapters[id].pointer < first ==>
      Lookup(base, id) == Some(adapters[id])
  }

  function Unkept(adapters: Adapters, keep: Adapters): Adapters {
    map id | id in adapters && !Keeps(keep, id, adapters[id]) :: adapters[id]
  }

  /** What retiring a snapshot except for another one retires. */
  ghost function Discarded(adapters: Adapters, keep: Adapters): set<nat> {
    Owned(Unkept(adapters, keep))
  }

  predicate Counted(a: Adapter, keep: Adapters, id: Name) {
    !Keeps(keep, id, a) && a.Built? && a.retirable
  }

  /** One visit of the retiring loop. */
  lemma DiscardedVisit(adapters: Adapters, before: Adapters, id: Name, keep: Adapters)
    requires Exclusive(adapters) && id in adapters && id !in before
    requires forall i :: i in before ==> i in adapters && before[i] == adapters[i]
    ensures var a := adapters[id];
            && (!Counted(a, keep, id) ==> Discarded(before[id := a], keep) == Discarded(before, keep))
            && (Counted(a, keep, id) ==> Discarded(before[id := a], keep) == Discarded(before, keep) + {a.pointer})
            && (Counted(a, keep, id) ==> a.pointer !in Discarded(before, keep))
  {
    var a := adapters[id];
    if Keeps(keep, id, a) {
      assert Unkept(before[id := a], keep) == Unkept(before, keep);
    } else {
      assert Unkept(before[id := a], keep) == Unkept(before, keep)[id := a];
      OwnedGrows(Unkept(before, keep), id, a);
      if Counted(a, keep, id) {
        forall i
          ensures !OwnedAt(Unkept(before, keep), i, a.pointer)
        {
        }
        NotOwned(Unkept(before, keep), a.pointer);
      }
    }
  }

  lemma OwnedGrows(adapters: Adapters, id: Name, a: Adapter)
    requires id !in adapters
    ensures Owned(adapters[id := a]) == Owned(adapters) + if a.Built? && a.retirable then {a.pointer} else {}
  {
    OwnedMeans(adapters);
    OwnedMeans(adapters[id := a]);
    forall p | p in Owned(adapters) || (a.Built? && a.retirable && p == a.pointer)
      ensures p in Owned(adapters[id := a])
    {
      if p in Owned(adapters) {
        var i :| OwnedAt(adapters, i, p);
        assert OwnedAt(adapters[id := a], i, p);
      } else {
        assert OwnedAt(adapters[id := a], id, p);
      }
    }
    forall p | p in Owned(adapters[id := a])
      ensures p in Owned(adapters) || (a.Built? && a.retirable && p == a.pointer)
    {
      var i :| OwnedAt(adapters[id := a], i, p);
      assert i != id ==> OwnedAt(adapters, i, p);
    }
  }

  /**
    When the adapters two snapshots share sit under the same provider, retiring one except for the other retires
    exactly what the other does not own.
  */
  lemma DiscardedIsDifference(adapters: Adapters, keep: Adapters)
    requires forall i, j, p :: OwnedAt(adapters, i, p) && OwnedAt(keep, j, p) ==> i == j
    ensures Discarded(adapters, keep) == Owned(adapters) - Owned(keep)
  {
    var kept := Unkept(adapters, keep);
    OwnedMeans(adapters);
    OwnedMeans(keep);
    OwnedMeans(kept);
    hide Owned;
    forall p | p in Owned(kept)
      ensures p in Owned(adapters) && p !in Owned(keep)
    {
      var id :| OwnedAt(kept, id, p);
      assert OwnedAt(adapters, id, p) && !OwnedAt(keep, id, p);
    }
    forall p | p in Owned(adapters) && p !in Owned(keep)
      ensures p in Owned(kept)
    {
      var id :| OwnedAt(adapters, id, p);
      assert !OwnedAt(keep, id, p);
      assert OwnedAt(kept, id, p);
    }
  }

  /** A snapshot built on another one shares adapters with it only under the same provider. */
  lemma SharedInPlace(adapters: Adapters, base: Adapters, first: nat)
    requires DerivedFrom(adapters, base, first) && Exclusive(base) && OlderThan(base, first)
    ensures forall i, j, p :: OwnedAt(adapters, i, p) && OwnedAt(base, j, p) ==> i == j
  {
    forall i, j, p | OwnedAt(adapters, i, p) && OwnedAt(base, j, p)
      ensures i == j
    {
      assert Lookup(base, i) == Some(adapters[i]);
    }
  }

  // ------------------------------------------------ building a snapshot

  /** Where building a snapshot can go wrong. */
  datatype Faults = Faults(authFails: bool, cancelledAt: nat -> bool, constructionFails: nat -> bool,
                           serviceFails: bool)

  /** An HTTP provider without a key gets the placeholder when it is built. */
  predicate NoKey(mock: bool, p: ProviderConfig) {
    !mock && p.kind.OpenAiResponses? && p.apiKey == ""
  }

  /** A new adapter can be made: a mock, the placeholder of a provider without a key, or a working constructor. */
  predicate Constructible(mock: bool, p: ProviderConfig, fails: bool) {
    mock || NoKey(mock, p) || (!p.kind.UnknownKind? && !fails)
  }

  predicate Served(mock: bool, p: ProviderConfig, base: Option<Snapshot>, f: Faults, i: nat) {
    !f.cancelledAt(i) && (Reusable(base, p).Some? || Constructible(mock, p, f.constructionFails(i)))
  }

  ghost predicate Buildable(mock: bool, providers: seq<ProviderConfig>, base: Option<Snapshot>, f: Faults) {
    && !f.authFails && !f.serviceFails && DistinctIds(providers)
    && forall i :: 0 <= i < |providers| ==> Served(mock, providers[i], base, f, i)
  }

  predicate DistinctIds(providers: seq<ProviderConfig>) {
    forall i, j :: 0 <= i < j < |providers| ==> providers[i].id != providers[j].id
  }

  /** Every provider that can be served by an adapter of the base is served by it. */
  ghost predicate ReusesAll(base: Option<Snapshot>, providers: seq<ProviderConfig>, adapters: Adapters) {
    forall i :: 0 <= i < |providers| && Reusable(base, providers[i]).Some? ==>
      Lookup(adapters, providers[i].id) == Reusable(base, providers[i])
  }

  predicate RunsProcess(p: ProviderConfig) {
    p.kind.CodexExec? || p.kind.WorkbuddyExec?
  }

  /** The adapter of a provider that had none to reuse: the placeholder when it has no key, else one that is new. */
  predicate FreshFor(mock: bool, p: ProviderConfig, first: nat, adapter: Adapter) {
    && (adapter.Unavailable? <==> NoKey(mock, p))
    && (adapter.Built? ==> first <= adapter.pointer && (adapter.retirable <==> !mock && RunsProcess(p)))
  }

  /** Every provider that cannot be served by an adapter of the base has such an adapter. */
  ghost predicate BuildsRest(mock: bool, base: Option<Snapshot>, providers: seq<ProviderConfig>, adapters: Adapters,
                             first: nat)
  {
    forall i :: 0 <= i < |providers| && Reusable(base, providers[i]).None? ==>
      providers[i].id in adapters && FreshFor(mock, providers[i], first, adapters[providers[i].id])
  }

  /** What serves the providers of a new snapshot: what can be reused, and new adapters for the rest. */
  ghost predicate Serves(mock: bool, base: Option<Snapshot>, providers: seq<ProviderConfig>, adapters: Adapters,
                         first: nat)
  {
    ReusesAll(base, providers, adapters) && BuildsRest(mock, base, providers, adapters, first)
  }

  lemma NothingBuilt(mock: bool, base: Option<Snapshot>, first: nat)
    ensures BuildsRest(mock, base, [], map[], first)
  {
  }

  lemma BuildsMore(mock: bool, base: Option<Snapshot>, done: seq<ProviderConfig>, p: ProviderConfig, byId: Adapters,
                   first: nat, a: Adapter)
    requires DistinctIds(done) ==> BuildsRest(mock, base, done, byId, first)
    requires Reusable(base, p).None? ==> FreshFor(mock, p, first, a)
    ensures DistinctIds(done + [p]) ==> BuildsRest(mock, base, done + [p], byId[p.id := a], first)
  {
    hide Reusable, FreshFor;
    var more := done + [p];
    assert forall i :: 0 <= i < |done| ==> more[i] == done[i];
    assert more[|done|] == p;
  }

  /** The adapters built by one attempt, none twice; `pointers` are those that hold processes. */
  ghost predicate Made(made: seq<Adapter>, pointers: set<nat>, first: nat, next: nat) {
    && (forall i :: 0 <= i < |made| ==> made[i].Built? && first <= made[i].pointer < next)
    && (forall i, j :: 0 <= i < j < |made| ==> made[i] != made[j])
    && (forall p :: p in pointers <==> Built(p, true) in made)
  }

  ghost function IdsOf(providers: seq<ProviderConfig>): set<Name> {
    set p | p in providers :: p.id
  }

  /** A snapshot has an adapter for each of its providers and no others. */
  ghost predicate Complete(s: Option<Snapshot>) {
    s.Some? ==> s.value.adapters.Keys == IdsOf(s.value.providers)
  }

  /** The state of an attempt after some providers. */
  ghost predicate Building(l: Ledger, first: nat, base: Option<Snapshot>, done: seq<ProviderConfig>, byId: Adapters,
                           made: seq<Adapter>, pointers: set<nat>)
  {
    var old' := AdaptersOf(base);
    && first <= l.built && Sane(l, old') && Sane(l, byId)
    && OlderThan(old', first)
    && Made(made, pointers, first, l.built)
    && Accounted(l, Owned(old') + pointers)
    && DerivedFrom(byId, old', first)
    && Owned(byId) <= Owned(old') + pointers
    && byId.Keys == IdsOf(done)
    && (DistinctIds(done) ==> pointers <= Owned(byId) && ReusesAll(base, done, byId))
  }

  lemma KeysOf(done: seq<ProviderConfig>, p: ProviderConfig, byId: Adapters, a: Adapter)
    requires byId.Keys == IdsOf(done)
    ensures byId[p.id := a].Keys == IdsOf(done + [p])
    ensures DistinctIds(done + [p]) ==> DistinctIds(done) && p.id !in byId
  {
    var all := done + [p];
    assert forall q :: q in all <==> q in done || q == p;
    assert IdsOf(all) == IdsOf(done) + {p.id};
    if DistinctIds(all) {
      assert forall i :: 0 <= i < |done| ==> all[i] == done[i];
      assert all[|done|] == p;
    }
  }

  /** Putting an adapter under a provider that may have had one adds at most that adapter. */
  lemma OwnedAtMost(adapters: Adapters, id: Name, a: Adapter)
    ensures Owned(adapters[id := a]) <= Owned(adapters) + if a.Built? && a.retirable then {a.pointer} else {}
  {
    OwnedMeans(adapters);
    OwnedMeans(adapters[id := a]);
    forall p | p in Owned(adapters[id := a])
      ensures p in Owned(adapters) || (a.Built? && a.retirable && p == a.pointer)
    {
      var i :| OwnedAt(adapters[id := a], i, p);
      assert i != id ==> OwnedAt(adapters, i, p);
    }
  }

  lemma ReusesMore(base: Option<Snapshot>, done: seq<ProviderConfig>, p: ProviderConfig, byId: Adapters, a: Adapter)
    requires DistinctIds(done + [p]) && ReusesAll(base, done, byId)
    requires Reusable(base, p).Some? ==> Some(a) == Reusable(base, p)
    ensures ReusesAll(base, done + [p], byId[p.id := a])
  {
    var all := done + [p];
    forall i | 0 <= i < |all| && Reusable(base, all[i]).Some?
      ensures Lookup(byId[p.id := a], all[i].id) == Reusable(base, all[i])
    {
      if i < |done| {
        assert all[i] == done[i] && all[|done|] == p;
      }
    }
  }

  lemma SaneReused(l: Ledger, first: nat, base: Adapters, byId: Adapters, id: Name)
    requires Sane(l, base) && Sane(l, byId) && DerivedFrom(byId, base, first) && id in base
    requires OlderThan(base, first)
    ensures Sane(l, byId[id := base[id]]) && DerivedFrom(byId[id := base[id]], base, first)
  {
    forall j | j in byId && byId[j].Built? && byId[j] == base[id]
      ensures j == id
    {
      assert Lookup(base, j) == Some(byId[j]);
    }
  }

  lemma BuildingReused(l: Ledger, first: nat, base: Option<Snapshot>, done: seq<ProviderConfig>, byId: Adapters,
                       made: seq<Adapter>, pointers: set<nat>, p: ProviderConfig)
    requires Building(l, first, base, done, byId, made, pointers)
    requires Reusable(base, p).Some?
    ensures Building(l, first, base, done + [p], byId[p.id := Reusable(base, p).value], made, pointers)
  {
    var a := Reusable(base, p).value;
    hide Made, Accounted, ReusesAll, DistinctIds, Owned;
    assert AdaptersOf(base)[p.id] == a;
    SaneReused(l, first, AdaptersOf(base), byId, p.id);
    KeysOf(done, p, byId, a);
    OwnedAtMost(byId, p.id, a);
    OwnedHas(AdaptersOf(base), p.id);
    if DistinctIds(done + [p]) {
      OwnedGrows(byId, p.id, a);
      ReusesMore(base, done, p, byId, a);
    }
  }

  lemma OwnedHas(adapters: Adapters, id: Name)
    requires id in adapters
    ensures adapters[id].Built? && adapters[id].retirable ==> adapters[id].pointer in Owned(adapters)
  {
  }

  /** A ledger after one more construction. */
  function Entered(l: Ledger, retirable: bool): Ledger {
    Ledger(l.built + 1, if retirable then l.retirables + {l.built} else l.retirables, l.retired)
  }

  lemma SaneEntered(l: Ledger, retirable: bool, adapters: Adapters)
    requires Sane(l, adapters)
    ensures Sane(Entered(l, retirable), adapters)
  {
  }

  lemma SaneNew(l: Ledger, retirable: bool, first: nat, base: Adapters, byId: Adapters, id: Name)
    requires Sane(l, byId) && (forall p :: p in l.retirables ==> p < l.built)
    requires DerivedFrom(byId, base, first) && first <= l.built
    ensures Sane(Entered(l, retirable), byId[id := Built(l.built, retirable)])
    ensures DerivedFrom(byId[id := Built(l.built, retirable)], base, first)
  {
  }

  lemma MadeMore(made: seq<Adapter>, pointers: set<nat>, first: nat, next: nat, retirable: bool)
    requires Made(made, pointers, first, next) && first <= next
    ensures Made(made + [Built(next, retirable)], if retirable then pointers + {next} else pointers, first, next + 1)
  {
    var all := made + [Built(next, retirable)];
    assert forall a :: a in all <==> a in made || a == Built(next, retirable);
  }

  lemma AccountedMore(l: Ledger, inUse: set<nat>, retirable: bool)
    requires Accounted(l, inUse)
    ensures Accounted(Entered(l, retirable), if retirable then inUse + {l.built} else inUse)
  {
    assert l.built !in l.retired;
  }

  lemma BuildingNew(l: Ledger, first: nat, base: Option<Snapshot>, done: seq<ProviderConfig>, byId: Adapters,
                    made: seq<Adapter>, pointers: set<nat>, p: ProviderConfig, retirable: bool)
    requires Building(l, first, base, done, byId, made, pointers)
    requires Reusable(base, p).None?
    ensures Building(Entered(l, retirable), first, base, done + [p], byId[p.id := Built(l.built, retirable)],
                     made + [Built(l.built, retirable)], if retirable then pointers + {l.built} else pointers)
  {
    var a := Built(l.built, retirable);
    var inUse := Owned(AdaptersOf(base)) + pointers;
    AccountedMore(l, inUse, retirable);
    hide Made, ReusesAll, DistinctIds, Owned;
    assert inUse + {l.built} == Owned(AdaptersOf(base)) + (pointers + {l.built});
    SaneEntered(l, retirable, AdaptersOf(base));
    SaneNew(l, retirable, first, AdaptersOf(base), byId, p.id);
    hide Accounted, Sane, DerivedFrom;
    MadeMore(made, pointers, first, l.built, retirable);
    KeysOf(done, p, byId, a);
    OwnedAtMost(byId, p.id, a);
    if DistinctIds(done + [p]) {
      OwnedGrows(byId, p.id, a);
      ReusesMore(base, done, p, byId, a);
    }
  }

  lemma BuildingPlaceholder(l: Ledger, first: nat, base: Option<Snapshot>, done: seq<ProviderConfig>, byId: Adapters,
                            made: seq<Adapter>, pointers: set<nat>, p: ProviderConfig)
    requires Building(l, first, base, done, byId, made, pointers)
    requires Reusable(base, p).None?
    ensures Building(l, first, base, done + [p], byId[p.id := Unavailable], made, pointers)
  {
    assert Sane(l, byId[p.id := Unavailable]);
    assert DerivedFrom(byId[p.id := Unavailable], AdaptersOf(base), first);
    hide Made, Accounted, ReusesAll, DistinctIds, Owned, Sane, DerivedFrom;
    KeysOf(done, p, byId, Unavailable);
    OwnedAtMost(byId, p.id, Unavailable);
    if DistinctIds(done + [p]) {
      OwnedGrows(byId, p.id, Unavailable);
      ReusesMore(base, done, p, byId, Unavailable);
    }
  }

  lemma BuildingStart(l: Ledger, base: Option<Snapshot>)
    requires Sane(l, AdaptersOf(base)) && Accounted(l, Owned(AdaptersOf(base)))
    ensures Building(l, l.built, base, [], map[], [], {})
  {
    assert Owned(map[]) == {};
    assert Owned(AdaptersOf(base)) + {} == Owned(AdaptersOf(base));
  }

  /** What an attempt leaves: on failure only the base is in use, on success both snapshots are. */
  ghost predicate Outcome(l: Ledger, first: nat, base: Option<Snapshot>, providers: seq<ProviderConfig>,
                          s: Option<Snapshot>)
  {
    && first <= l.built && Sane(l, AdaptersOf(base)) && Complete(s)
    && match s
       case None => Accounted(l, Owned(AdaptersOf(base)))
       case Some(made) =>
         && made.providers == providers && Sane(l, made.adapters)
         && Accounted(l, Owned(AdaptersOf(base)) + Owned(made.adapters))
         && DerivedFrom(made.adapters, AdaptersOf(base), first)
         && ReusesAll(base, providers, made.adapters)
  }

  lemma NothingDone(l: Ledger, base: Option<Snapshot>, providers: seq<ProviderConfig>)
    requires Sane(l, AdaptersOf(base)) && Accounted(l, Owned(AdaptersOf(base)))
    ensures Outcome(l, l.built, base, providers, None)
  {
  }

  /** Giving up: what was built is retired, and only the base is in use. */
  lemma BuildingAbandoned(l: Ledger, first: nat, base: Option<Snapshot>, done: seq<ProviderConfig>, byId: Adapters,
                          made: seq<Adapter>, pointers: set<nat>, after: multiset<nat>)
    requires Building(l, first, base, done, byId, made, pointers)
    requires RetiredOnce(l.retired, after, pointers)
    ensures Accounted(l.(retired := after), Owned(AdaptersOf(base)))
    ensures Sane(l.(retired := after), AdaptersOf(base))
  {
    NewIsNotOld(l, first, base, done, byId, made, pointers);
    hide Owned, Made, RetiredOnce, Accounted, DerivedFrom;
    var inUse := Owned(AdaptersOf(base)) + pointers;
    RetireSome(l, after, inUse, pointers);
    assert inUse - pointers == Owned(AdaptersOf(base));
  }

  lemma NewIsNotOld(l: Ledger, first: nat, base: Option<Snapshot>, done: seq<ProviderConfig>, byId: Adapters,
                    made: seq<Adapter>, pointers: set<nat>)
    requires Building(l, first, base, done, byId, made, pointers)
    ensures pointers !! Owned(AdaptersOf(base))
  {
    hide Owned, Accounted, DerivedFrom, Sane;
    forall p | p in pointers
      ensures p !in Owned(AdaptersOf(base))
    {
      assert Built(p, true) in made;
      NotOwned(AdaptersOf(base), p);
    }
  }

  /** A finished attempt: both snapshots are in use. */
  lemma BuildingDone(l: Ledger, first: nat, base: Option<Snapshot>, providers: seq<ProviderConfig>, byId: Adapters,
                     made: seq<Adapter>, pointers: set<nat>)
    requires Building(l, first, base, providers, byId, made, pointers) && DistinctIds(providers)
    ensures Outcome(l, first, base, providers, Some(Snapshot(providers, byId)))
  {
    hide Owned, Accounted, DerivedFrom, Sane, Made, ReusesAll, DistinctIds;
    assert Owned(AdaptersOf(base)) + Owned(byId) == Owned(AdaptersOf(base)) + pointers;
  }

  ghost predicate OlderThan(adapters: Adapters, first: nat) {
    forall id :: id in adapters && adapters[id].Built? ==> adapters[id].pointer < first
  }

  /** A snapshot that was built on another one and is not installed yet: both are in use. */
  ghost predicate Pending(l: Ledger, base: Adapters, staged: Snapshot, first: nat) {
    && Sane(l, base) && Sane(l, staged.adapters) && Complete(Some(staged))
    && Accounted(l, Owned(base) + Owned(staged.adapters))
    && DerivedFrom(staged.adapters, base, first) && OlderThan(base, first)
  }

  lemma PendingMeans(l: Ledger, base: Adapters, staged: Snapshot, first: nat)
    requires Pending(l, base, staged, first)
    ensures Exclusive(base) && Exclusive(staged.adapters)
  {
  }

  /** After the switch to a new snapshot and the retiring of the old one, only the new one is in use. */
  lemma Released(l: Ledger, after: multiset<nat>, replaced: Adapters, installed: Snapshot, first: nat)
    requires Pending(l, replaced, installed, first)
    requires RetiredOnce(l.retired, after, Discarded(replaced, installed.adapters))
    ensures Sane(l.(retired := after), installed.adapters) && Complete(Some(installed))
    ensures Accounted(l.(retired := after), Owned(installed.adapters))
  {
    SharedInPlace(installed.adapters, replaced, first);
    DiscardedIsDifference(replaced, installed.adapters);
    hide Discarded, Owned, Accounted, DerivedFrom, RetiredOnce, OlderThan, Complete;
    var old', new' := Owned(replaced), Owned(installed.adapters);
    RetireSome(l, after, old' + new', old' - new');
    assert (old' + new') - (old' - new') == new';
  }

  /** After the retiring of a snapshot that was not installed, only the current one is in use. */
  lemma Unstaged(l: Ledger, after: multiset<nat>, current: Adapters, staged: Snapshot, first: nat)
    requires Pending(l, current, staged, first)
    requires RetiredOnce(l.retired, after, Discarded(staged.adapters, current))
    ensures Sane(l.(retired := after), current) && Accounted(l.(retired := after), Owned(current))
  {
    SharedInPlace(staged.adapters, current, first);
    DiscardedIsDifference(staged.adapters, current);
    hide Discarded, Owned, Accounted, DerivedFrom, RetiredOnce, OlderThan, Complete;
    var old', new' := Owned(current), Owned(staged.adapters);
    RetireSome(l, after, old' + new', new' - old');
    assert (old' + new') - (new' - old') == old';
  }

  lemma NothingOwned()
    ensures Owned(map[]) == {}
    ensures forall j: Name, p: nat :: !OwnedAt(map[], j, p)
  {
  }

  lemma Closed(l: Ledger, after: multiset<nat>, closing: Adapters)
    requires Accounted(l, Owned(closing)) && RetiredOnce(l.retired, after, Discarded(closing, map[]))
    ensures Accounted(l.(retired := after), Owned(map[]))
  {
    NothingOwned();
    DiscardedIsDifference(closing, map[]);
    hide Discarded, Owned, Accounted, RetiredOnce;
    assert Owned(closing) - {} == Owned(closing);
    RetireSome(l, after, Owned(closing), Owned(closing));
    assert Owned(closing) - Owned(closing) == {};
  }

  function WithoutKeys(providers: seq<ProviderConfig>): (r: seq<ProviderConfig>)
    ensures |r| == |providers|
    ensures forall i :: 0 <= i < |r| ==> r[i] == providers[i].(apiKey := "")
    ensures IdsOf(r) == IdsOf(providers)
  {
    var cleared := seq(|providers|, i requires 0 <= i < |providers| => providers[i].(apiKey := ""));
    assert forall p :: p in providers ==> p.(apiKey := "") in cleared by {
      assert forall i :: 0 <= i < |providers| ==> cleared[i] == providers[i].(apiKey := "");
    }
    cleared
  }

  // ------------------------------------------------ the same on the fields of the configuration

  /** The compared snapshot lists a provider of this id, kind and runtime. */
  ghost predicate ListsRuntime(base: Option<Snapshot>, p: ProviderConfig) {
    base.Some? && exists q :: q in base.value.providers && q.id == p.id && q.kind == p.kind && q.runtime == p.runtime
  }

  /** The compared snapshot lists an HTTP provider of this id, with this endpoint and key. */
  ghost predicate ListsEndpoint(base: Option<Snapshot>, p: ProviderConfig) {
    && base.Some?
    && exists q :: && q in base.value.providers && q.id == p.id && q.kind.OpenAiResponses?
                   && q.endpoint == p.endpoint && q.apiKey == p.apiKey
  }

  /** The provider goes on with the adapter that served its id before. */
  predicate GoesOn(base: Option<Snapshot>, adapters: Adapters, id: Name) {
    Lookup(adapters, id).Some? && Lookup(adapters, id) == Lookup(AdaptersOf(base), id)
  }

  /** The provider has an adapter that did not exist before, and the process of the old one was told once to end. */
  ghost predicate StartsAnew(base: Option<Snapshot>, adapters: Adapters, id: Name, first: nat, retired: multiset<nat>) {
    && id in adapters && adapters[id].Built? && adapters[id].pointer >= first
    && forall q :: Lookup(AdaptersOf(base), id) == Some(Built(q, true)) ==> retired[q] == 1
  }

  /** What serves an executable provider: the old adapter exactly when its id, kind and runtime are unchanged. */
  ghost predicate ExecutablesFollow(base: Option<Snapshot>, providers: seq<ProviderConfig>, adapters: Adapters,
                                    first: nat, retired: multiset<nat>)
  {
    forall i :: 0 <= i < |providers| && (providers[i].kind.CodexExec? || providers[i].kind.WorkbuddyExec?) ==>
      && (GoesOn(base, adapters, providers[i].id) <==> ListsRuntime(base, providers[i]))
      && (!ListsRuntime(base, providers[i]) ==> StartsAnew(base, adapters, providers[i].id, first, retired))
  }

  lemma ReusableMeans(base: Option<Snapshot>, p: ProviderConfig)
    requires Complete(base)
    ensures p.kind.CodexExec? || p.kind.WorkbuddyExec? ==> (Reusable(base, p).Some? <==> ListsRuntime(base, p))
    ensures p.kind.OpenAiResponses? ==> (Reusable(base, p).Some? <==> ListsEndpoint(base, p))
    ensures p.kind.UnknownKind? ==> Reusable(base, p).None?
    ensures Reusable(base, p).Some? ==> Reusable(base, p) == Lookup(AdaptersOf(base), p.id)
  {
    if Reusable(base, p).Some? {
      var q :| q in base.value.providers && SameRuntime(q, p);
    }
    if ListsRuntime(base, p) && (p.kind.CodexExec? || p.kind.WorkbuddyExec?) {
      var q :| q in base.value.providers && q.id == p.id && q.kind == p.kind && q.runtime == p.runtime;
      assert SameRuntime(q, p) && p.id in IdsOf(base.value.providers);
    }
    if ListsEndpoint(base, p) && p.kind.OpenAiResponses? {
      var q :| && q in base.value.providers && q.id == p.id && q.kind.OpenAiResponses?
               && q.endpoint == p.endpoint && q.apiKey == p.apiKey;
      assert SameRuntime(q, p) && p.id in IdsOf(base.value.providers);
    }
  }

  /** Nothing stops the build at this provider: it goes on with an adapter, or one can be made. */
  ghost predicate CanServe(mock: bool, p: ProviderConfig, base: Option<Snapshot>, cancelled: bool, fails: bool) {
    && !cancelled
    && match p.kind
       case OpenAiResponses => ListsEndpoint(base, p) || mock || p.apiKey == "" || !fails
       case CodexExec => ListsRuntime(base, p) || mock || !fails
       case WorkbuddyExec => ListsRuntime(base, p) || mock || !fails
       case UnknownKind => mock
  }

  lemma ServedMeans(mock: bool, p: ProviderConfig, base: Option<Snapshot>, f: Faults, i: nat)
    requires Complete(base)
    ensures Served(mock, p, base, f, i) <==> CanServe(mock, p, base, f.cancelledAt(i), f.constructionFails(i))
  {
    ReusableMeans(base, p);
    hide Reusable, ListsRuntime, ListsEndpoint, Complete;
  }

  /** When a snapshot can be built, on the fields of its providers. */
  lemma BuildableMeans(mock: bool, providers: seq<ProviderConfig>, base: Option<Snapshot>, f: Faults)
    requires Complete(base)
    ensures Buildable(mock, providers, base, f)
       <==> && !f.authFails && !f.serviceFails
            && (forall i, j :: 0 <= i < j < |providers| ==> providers[i].id != providers[j].id)
            && forall i :: 0 <= i < |providers| ==>
                 CanServe(mock, providers[i], base, f.cancelledAt(i), f.constructionFails(i))
  {
    forall i | 0 <= i < |providers|
      ensures Served(mock, providers[i], base, f, i)
         <==> CanServe(mock, providers[i], base, f.cancelledAt(i), f.constructionFails(i))
    {
      ServedMeans(mock, providers[i], base, f, i);
    }
    hide Served, CanServe;
  }

  /** One provider of a snapshot that replaced the one it was built on. */
  lemma FollowsOne(mock: bool, l: Ledger, after: multiset<nat>, base: Option<Snapshot>, staged: Snapshot,
                   providers: seq<ProviderConfig>, first: nat, i: nat)
    requires Pending(l, AdaptersOf(base), staged, first) && Complete(base)
    requires Serves(mock, base, providers, staged.adapters, first)
    requires Accounted(l.(retired := after), Owned(staged.adapters))
    requires i < |providers| && (providers[i].kind.CodexExec? || providers[i].kind.WorkbuddyExec?)
    ensures GoesOn(base, staged.adapters, providers[i].id) <==> ListsRuntime(base, providers[i])
    ensures !ListsRuntime(base, providers[i]) ==> StartsAnew(base, staged.adapters, providers[i].id, first, after)
  {
    var p := providers[i];
    ReusableMeans(base, p);
    hide Reusable, ListsRuntime, Complete, Owned;
    if Reusable(base, p).Some? {
      assert Lookup(staged.adapters, providers[i].id) == Reusable(base, providers[i]);
    } else {
      assert p.id in staged.adapters && FreshFor(mock, p, first, staged.adapters[p.id]);
      forall q | Lookup(AdaptersOf(base), p.id) == Some(Built(q, true))
        ensures after[q] == 1
      {
        ReplacedIsGone(base, staged.adapters, first, p.id, q);
        OwnedMeans(AdaptersOf(base));
        assert OwnedAt(AdaptersOf(base), p.id, q);
      }
    }
  }

  /** An adapter that its provider lost serves no other provider. */
  lemma ReplacedIsGone(base: Option<Snapshot>, adapters: Adapters, first: nat, id: Name, q: nat)
    requires DerivedFrom(adapters, AdaptersOf(base), first) && Exclusive(AdaptersOf(base)) && q < first
    requires Lookup(AdaptersOf(base), id) == Some(Built(q, true)) && Lookup(adapters, id) != Some(Built(q, true))
    ensures q !in Owned(adapters)
  {
  }

  lemma Follows(mock: bool, l: Ledger, after: multiset<nat>, base: Option<Snapshot>, staged: Snapshot,
                providers: seq<ProviderConfig>, first: nat)
    requires Pending(l, AdaptersOf(base), staged, first) && Complete(base)
    requires Serves(mock, base, providers, staged.adapters, first)
    requires Accounted(l.(retired := after), Owned(staged.adapters))
    ensures ExecutablesFollow(base, providers, staged.adapters, first, after)
  {
    hide Pending, Complete, Serves, Accounted, Owned, GoesOn, ListsRuntime, StartsAnew;
    forall i | 0 <= i < |providers| && (providers[i].kind.CodexExec? || providers[i].kind.WorkbuddyExec?)
      ensures GoesOn(base, staged.adapters, providers[i].id) <==> ListsRuntime(base, providers[i])
      ensures !ListsRuntime(base, providers[i]) ==> StartsAnew(base, staged.adapters, providers[i].id, first, after)
    {
      FollowsOne(mock, l, after, base, staged, providers, first, i);
    }
  }

  // ------------------------------------------------ the manager

  class Manager {
    const mock: bool
    var current: Option<Snapshot>
    var built: nat
    ghost var retirables: set<nat>
    ghost var retired: multiset<nat>

    ghost function Books(): Ledger
      reads this
    {
      Ledger(built, retirables, retired)
    }

    /**
      No adapter of the current snapshot was ever retired, and every other adapter that holds processes was
      retired exactly once.
    */
    ghost predicate Valid()
      reads this
    {
      Sane(Books(), AdaptersOf(current)) && Accounted(Books(), Owned(AdaptersOf(current))) && Complete(current)
    }

    constructor (mock: bool)
      ensures Valid() && current == None && this.mock == mock
    {
      this.mock := mock;
      current, built, retirables, retired := None, 0, {}, multiset{};
      new;
      assert Owned(map[]) == {};
    }

    /** Makes an adapter for a provider that has none to reuse; None when its constructor fails. */
    method Construct(p: ProviderConfig, fails: bool) returns (adapter: Option<Adapter>)
      modifies this`built, this`retirables
      ensures adapter.Some? <==> Constructible(mock, p, fails)
      ensures adapter == Some(Unavailable) <==> NoKey(mock, p)
      ensures adapter.Some? && adapter.value.Built? ==>
                && adapter.value == Built(old(built), !mock && (p.kind.CodexExec? || p.kind.WorkbuddyExec?))
                && Books() == Entered(old(Books()), adapter.value.retirable)
      ensures adapter.None? || adapter.value.Unavailable? ==> Books() == old(Books())
    {
      if !mock && p.kind.OpenAiResponses? && p.apiKey == "" {
        return Some(Unavailable);
      }
      if !mock && (p.kind.UnknownKind? || fails) {
        return None;
      }
      var holdsProcesses := !mock && (p.kind.CodexExec? || p.kind.WorkbuddyExec?);
      adapter := Some(Built(built, holdsProcesses));
      if holdsProcesses {
        retirables := retirables + {built};
      }
      built := built + 1;
    }

    /** Retires the adapters built by an attempt that is given up. */
    method RetireBuilt(made: seq<Adapter>, ghost pointers: set<nat>, ghost first: nat)
      requires Made(made, pointers, first, built)
      modifies this`retired
      ensures RetiredOnce(old(retired), retired, pointers)
    {
      ghost var done: set<nat> := {};
      for i := 0 to |made|
        invariant forall p :: p in done <==> Built(p, true) in made[..i]
        invariant RetiredOnce(old(retired), retired, done)
      {
        hide RetiredOnce;
        assert made[..i + 1] == made[..i] + [made[i]];
        if made[i].retirable {
          var p := made[i].pointer;
          assert made[i] == Built(p, true) && made[i] !in made[..i];
          RetiredMore(old(retired), retired, done, p);
          retired := retired + multiset{p};
          done := done + {p};
        }
      }
      assert made[..|made|] == made;
      assert done == pointers;
    }

    /** Visits the adapters of a snapshot in any order and retires those the other snapshot does not keep. */
    method RetireSnapshotExcept(adapters: Adapters, keep: Adapters)
      requires Exclusive(adapters)
      modifies this`retired
      ensures RetiredOnce(old(retired), retired, Discarded(adapters, keep))
    {
      var left := adapters.Keys;
      ghost var visited: Adapters := map[];
      assert Discarded(visited, keep) == {};
      while left != {}
        invariant left <= adapters.Keys && visited.Keys == adapters.Keys - left
        invariant forall id :: id in visited ==> visited[id] == adapters[id]
        invariant RetiredOnce(old(retired), retired, Discarded(visited, keep))
        decreases left
      {
        hide RetiredOnce, Discarded, Exclusive, Keeps;
        var id :| id in left;
        var adapter := adapters[id];
        DiscardedVisit(adapters, visited, id, keep);
        left := left - {id};
        if !Keeps(keep, id, adapter) && adapter.Built? && adapter.retirable {
          RetiredMore(old(retired), retired, Discarded(visited, keep), adapter.pointer);
          retired := retired + multiset{adapter.pointer};
        }
        visited := visited[id := adapter];
      }
      assert visited == adapters;
    }

    /** Finds or makes the adapter of one provider. */
    method Serve(p: ProviderConfig, fails: bool, base: Option<Snapshot>, ghost first: nat,
                 ghost done: seq<ProviderConfig>, ghost byId: Adapters, made: seq<Adapter>, ghost pointers: set<nat>)
      returns (adapter: Option<Adapter>, made': seq<Adapter>, ghost pointers': set<nat>)
      requires Building(Books(), first, base, done, byId, made, pointers)
      modifies this`built, this`retirables
      ensures old(built) <= built
      ensures adapter.Some? <==> Reusable(base, p).Some? || Constructible(mock, p, fails)
      ensures adapter.None? ==> Books() == old(Books())
      ensures adapter.Some? && Reusable(base, p).None? ==> FreshFor(mock, p, old(built), adapter.value)
      ensures adapter.Some? ==> Building(Books(), first, base, done + [p], byId[p.id := adapter.value], made',
                                         pointers')
    {
      hide Building, Reusable;
      made', pointers' := made, pointers;
      ghost var before := Books();
      adapter := Reusable(base, p);
      if adapter.Some? {
        BuildingReused(before, first, base, done, byId, made, pointers, p);
        return;
      }
      adapter := Construct(p, fails);
      if adapter.None? {
        return;
      }
      if adapter.value.Unavailable? {
        BuildingPlaceholder(before, first, base, done, byId, made, pointers, p);
      } else {
        BuildingNew(before, first, base, done, byId, made, pointers, p, adapter.value.retirable);
        made' := made + [adapter.value];
        pointers' := if adapter.value.retirable then pointers + {adapter.value.pointer} else pointers;
      }
    }

    /**
      Builds a snapshot, reusing what it can. On failure everything built on the way is retired again; on success
      both snapshots are in use, and each provider that did not change has its old adapter.
    */
    method Build(providers: seq<ProviderConfig>, base: Option<Snapshot>, f: Faults) returns (s: Option<Snapshot>)
      requires Sane(Books(), AdaptersOf(base)) && Accounted(Books(), Owned(AdaptersOf(base)))
      modifies this`built, this`retirables, this`retired
      ensures s.Some? <==> Buildable(mock, providers, base, f)
      ensures s.Some? ==> BuildsRest(mock, base, providers, s.value.adapters, old(built))
      ensures Outcome(Books(), old(built), base, providers, s)
    {
      hide Sane, Accounted, Owned, Building, Outcome, Reusable, Constructible, DistinctIds, AdaptersOf, BuildsRest;
      if f.authFails {
        NothingDone(Books(), base, providers);
        return None;
      }
      var byId: Adapters := map[];
      var made: seq<Adapter> := [];
      ghost var pointers: set<nat> := {};
      ghost var first := built;
      NothingBuilt(mock, base, first);
      BuildingStart(Books(), base);
      for i := 0 to |providers|
        invariant Building(Books(), first, base, providers[..i], byId, made, pointers)
        invariant first == old(built) && first <= built
        invariant DistinctIds(providers[..i]) ==> BuildsRest(mock, base, providers[..i], byId, first)
        invariant forall k :: 0 <= k < i ==> Served(mock, providers[k], base, f, k)
      {
        var p := providers[i];
        assert providers[..i + 1] == providers[..i] + [p];
        if f.cancelledAt(i) {
          Abandon(first, base, providers[..i], byId, made, pointers, providers);
          return None;
        }
        var adapter, made', pointers' := Serve(p, f.constructionFails(i), base, first, providers[..i], byId, made,
                                               pointers);
        if adapter.None? {
          Abandon(first, base, providers[..i], byId, made, pointers, providers);
          return None;
        }
        BuildsMore(mock, base, providers[..i], p, byId, first, adapter.value);
        byId, made, pointers := byId[p.id := adapter.value], made', pointers';
      }
      assert providers[..|providers|] == providers;
      if f.serviceFails || !DistinctIds(providers) {
        Abandon(first, base, providers, byId, made, pointers, providers);
        return None;
      }
      BuildingDone(Books(), first, base, providers, byId, made, pointers);
      s := Some(Snapshot(providers, byId));
    }

    /** The failure exit of Build. */
    method Abandon(ghost first: nat, ghost base: Option<Snapshot>, ghost done: seq<ProviderConfig>,
                   ghost byId: Adapters,
                   made: seq<Adapter>, ghost pointers: set<nat>, ghost providers: seq<ProviderConfig>)
      requires Building(Books(), first, base, done, byId, made, pointers)
      modifies this`retired
      ensures Outcome(Books(), first, base, providers, None)
    {
      hide Sane, Accounted, Owned, DerivedFrom, Made, RetiredOnce;
      ghost var before := Books();
      RetireBuilt(made, pointers, first);
      BuildingAbandoned(before, first, base, done, byId, made, pointers, retired);
    }

    /** Swaps the current snapshot and retires what only the old one used. It takes no lock of its own. */
    method Swap(s: Option<Snapshot>)
      requires Exclusive(AdaptersOf(current))
      modifies this`current, this`retired
      ensures current == s
      ensures RetiredOnce(old(retired), retired, Discarded(AdaptersOf(old(current)), AdaptersOf(s)))
    {
      var replaced := AdaptersOf(current);
      current := s;
      RetireSnapshotExcept(replaced, AdaptersOf(s));
    }

    /** Installs a snapshot that was built on the current one. */
    method Install(staged: Snapshot, ghost first: nat)
      requires Pending(Books(), AdaptersOf(current), staged, first)
      modifies this`current, this`retired
      ensures Valid() && current == Some(staged)
      ensures Accounted(old(Books()).(retired := retired), Owned(staged.adapters))
    {
      hide Pending;
      ghost var before := Books();
      PendingMeans(before, AdaptersOf(current), staged, first);
      Swap(Some(staged));
      Released(before, retired, AdaptersOf(old(current)), staged, first);
    }

    /**
      The same with a Close in between. An adapter that holds processes is then retired and in use exactly when it is
      shared with the snapshot that was closed.
    */
    method InstallAfterClose(staged: Snapshot, ghost first: nat)
      requires Pending(Books(), AdaptersOf(current), staged, first)
      modifies this`current, this`retired
      ensures current == Some(staged)
      ensures forall p :: p in Owned(staged.adapters) ==> (p in retired <==> p in Owned(AdaptersOf(old(current))))
    {
      hide Pending, Discarded, Owned, RetiredOnce;
      ghost var before := Books();
      PendingMeans(before, AdaptersOf(current), staged, first);
      Swap(None);
      ghost var closed := retired;
      NothingOwned();
      Swap(Some(staged));
      ClosedUnderneath(before, closed, retired, AdaptersOf(old(current)), staged, first);
    }

    /** The part of a reload before its swap: it reads the files and builds on the current snapshot. */
    method Load(loaded: Option<seq<ProviderConfig>>, f: Faults) returns (staged: Option<Snapshot>)
      requires Valid()
      modifies this`built, this`retirables, this`retired
      ensures staged.Some? <==> loaded.Some? && Buildable(mock, loaded.value, current, f)
      ensures staged.None? ==> Valid()
      ensures staged.Some? ==> Pending(Books(), AdaptersOf(current), staged.value, old(built))
      ensures staged.Some? ==> staged.value.providers == loaded.value
      ensures staged.Some? ==> Serves(mock, current, loaded.value, staged.value.adapters, old(built))
    {
      if loaded.None? {
        return None;
      }
      staged := Build(loaded.value, current, f);
    }

    method Reload(loaded: Option<seq<ProviderConfig>>, f: Faults) returns (ok: bool)
      requires Valid()
      modifies this
      ensures Valid()
      ensures ok <==> loaded.Some? && Buildable(mock, loaded.value, old(current), f)
      ensures !ok ==> current == old(current)
      ensures ok ==> loaded.Some? && current.Some? && current.value.providers == loaded.value
      ensures ok ==> Serves(mock, old(current), loaded.value, current.value.adapters, old(built))
      ensures ok ==>
                ExecutablesFollow(old(current), loaded.value, current.value.adapters, old(built), retired)
    {
      var staged := Load(loaded, f);
      if staged.None? {
        return false;
      }
      ghost var before := Books();
      Install(staged.value, old(built));
      Follows(mock, before, retired, old(current), staged.value, loaded.value, old(built));
      ok := true;
    }

    /** A reload with a Close between its loading of the current snapshot and its swap. */
    method ReloadAroundClose(loaded: Option<seq<ProviderConfig>>, f: Faults) returns (ok: bool)
      requires Valid()
      modifies this
      ensures ok <==> loaded.Some? && Buildable(mock, loaded.value, old(current), f)
      ensures !ok ==> Valid() && current == None
      ensures ok ==> current.Some? && current.value.providers == loaded.value
      ensures ok ==>
                forall p :: p in Owned(AdaptersOf(current)) ==> (p in retired <==> p in Owned(AdaptersOf(old(current))))
    {
      var staged := Load(loaded, f);
      if staged.None? {
        Close();
        return false;
      }
      InstallAfterClose(staged.value, old(built));
      ok := true;
    }

    /**
      The part of an update before its swap: it loads the current snapshot, builds on it and saves. `resolved` is None
      when the configuration with its secrets does not validate.
    */
    method Prepare(resolved: Option<seq<ProviderConfig>>, f: Faults, saveFails: bool) returns (staged: Option<Snapshot>)
      requires Valid()
      modifies this`built, this`retirables, this`retired
      ensures staged.Some? <==>
                && current.Some? && resolved.Some? && !saveFails
                && Buildable(mock, resolved.value, current, f)
      ensures staged.None? ==> Valid()
      ensures staged.Some? ==> Pending(Books(), AdaptersOf(current), staged.value, old(built))
      ensures staged.Some? ==> staged.value.providers == WithoutKeys(resolved.value)
      ensures staged.Some? ==> Serves(mock, current, resolved.value, staged.value.adapters, old(built))
    {
      if current.None? || resolved.None? {
        return None;
      }
      var s := Build(resolved.value, current, f);
      if s.None? {
        return None;
      }
      // Saving clears the keys in the provider list that the new snapshot shares.
      var cleared := Snapshot(WithoutKeys(s.value.providers), s.value.adapters);
      if saveFails {
        ghost var before := Books();
        RetireSnapshotExcept(cleared.adapters, AdaptersOf(current));
        Unstaged(before, retired, AdaptersOf(current), cleared, old(built));
        return None;
      }
      staged := Some(cleared);
    }

    method Update(resolved: Option<seq<ProviderConfig>>, f: Faults, saveFails: bool) returns (ok: bool)
      requires Valid()
      modifies this
      ensures Valid()
      ensures ok <==>
                && old(current).Some? && resolved.Some? && !saveFails
                && Buildable(mock, resolved.value, old(current), f)
      ensures !ok ==> current == old(current)
      ensures ok ==> old(current).Some? && resolved.Some? && current.Some?
      ensures ok ==> current.value.providers == WithoutKeys(resolved.value)
      ensures ok ==> Serves(mock, old(current), resolved.value, current.value.adapters, old(built))
      ensures ok ==>
                ExecutablesFollow(old(current), resolved.value, current.value.adapters, old(built), retired)
    {
      var staged := Prepare(resolved, f, saveFails);
      if staged.None? {
        return false;
      }
      ghost var before := Books();
      Install(staged.value, old(built));
      Follows(mock, before, retired, old(current), staged.value, resolved.value, old(built));
      ok := true;
    }

    method Close()
      requires Valid()
      modifies this
      ensures Valid() && current == None
    {
      ghost var before := Books();
      Swap(None);
      Closed(before, retired, AdaptersOf(old(current)));
    }

    /**
      An update with a Close between its loading of the current snapshot and its swap. The snapshot it installs then
      has a retired adapter exactly when it shares one that holds processes with the snapshot that was closed.
    */
    method UpdateAroundClose(resolved: Option<seq<ProviderConfig>>, f: Faults, saveFails: bool) returns (ok: bool)
      requires Valid()
      modifies this
      ensures ok <==>
                && old(current).Some? && resolved.Some? && !saveFails
                && Buildable(mock, resolved.value, old(current), f)
      ensures !ok ==> Valid() && current == None
      ensures ok ==> current.Some? && current.value.providers == WithoutKeys(resolved.value)
      ensures ok ==>
                forall p :: p in Owned(AdaptersOf(current)) ==> (p in retired <==> p in Owned(AdaptersOf(old(current))))
    {
      var staged := Prepare(resolved, f, saveFails);
      if staged.None? {
        Close();
        return false;
      }
      InstallAfterClose(staged.value, old(built));
      ok := true;
    }
  }

  // ------------------------------------------------ keys

  /** An HTTP provider with these compared fields, whatever its key. */
  ghost predicate HasEndpoint(providers: seq<ProviderConfig>, p: ProviderConfig) {
    exists q :: q in providers && q.id == p.id && q.kind == p.kind && q.endpoint == p.endpoint
  }

  /** A snapshot as an update leaves it: its providers have lost their keys. */
  ghost predicate LeftByUpdate(updated: Snapshot, resolved: seq<ProviderConfig>) {
    Complete(Some(updated)) && updated.providers == WithoutKeys(resolved)
  }

  /** On such a snapshot a provider can be reused exactly when it has no key and its other fields are unchanged. */
  lemma ReusableAfterUpdate(updated: Snapshot, resolved: seq<ProviderConfig>, p: ProviderConfig)
    requires LeftByUpdate(updated, resolved) && p.kind.OpenAiResponses?
    ensures Reusable(Some(updated), p).Some? <==> p.apiKey == "" && HasEndpoint(resolved, p)
  {
    if p.apiKey == "" && HasEndpoint(resolved, p) {
      var q :| q in resolved && q.id == p.id && q.kind == p.kind && q.endpoint == p.endpoint;
      var i :| 0 <= i < |resolved| && resolved[i] == q;
      assert updated.providers[i] == q.(apiKey := "");
      assert SameRuntime(updated.providers[i], p) && p.id in IdsOf(updated.providers);
    }
    if Reusable(Some(updated), p).Some? {
      var q :| q in updated.providers && SameRuntime(q, p);
      var i :| 0 <= i < |updated.providers| && updated.providers[i] == q;
      assert resolved[i] in resolved && q == resolved[i].(apiKey := "");
    }
  }

  /**
    After an update a reload keeps a working HTTP adapter if and only if the provider now has no key and its other
    fields are unchanged. One that kept its key is built anew; one that lost it goes on with the old adapter, where a
    new one would be the placeholder.
  */
  lemma HttpKeptExactly(mock: bool, updated: Snapshot, resolved: seq<ProviderConfig>, providers: seq<ProviderConfig>,
                        adapters: Adapters, first: nat, i: nat)
    requires LeftByUpdate(updated, resolved) && OlderThan(updated.adapters, first)
    requires Serves(mock, Some(updated), providers, adapters, first)
    requires i < |providers| && providers[i].kind.OpenAiResponses?
    requires var a := Lookup(updated.adapters, providers[i].id); a.Some? && a.value.Built?
    ensures Lookup(adapters, providers[i].id) == Lookup(updated.adapters, providers[i].id)
       <==> providers[i].apiKey == "" && HasEndpoint(resolved, providers[i])
  {
    ReusableAfterUpdate(updated, resolved, providers[i]);
    hide HasEndpoint, LeftByUpdate;
    var p := providers[i];
    assert Reusable(Some(updated), p).None? ==> FreshFor(mock, p, first, adapters[p.id]);
  }

  /** A provider that was updated with a key and reloaded without one is still served with the old one. */
  lemma RemovedKeyStaysInUse(base: Option<Snapshot>, updated: Snapshot, p: ProviderConfig, adapters: Adapters,
                             first: nat, next: nat)
    requires p.kind.OpenAiResponses? && p.apiKey != "" && Reusable(base, p).None?
    requires LeftByUpdate(updated, [p]) && Serves(false, base, [p], updated.adapters, first)
    requires OlderThan(updated.adapters, next)
    requires Serves(false, Some(updated), [p.(apiKey := "")], adapters, next)
    ensures p.id in updated.adapters && updated.adapters[p.id].Built?
    ensures Lookup(adapters, p.id) == Some(updated.adapters[p.id])
  {
    assert FreshFor(false, [p][0], first, updated.adapters[p.id]);
    assert p in [p] && HasEndpoint([p], p.(apiKey := ""));
    HttpKeptExactly(false, updated, [p], [p.(apiKey := "")], adapters, next, 0);
  }

  /** Without the update in between, the reload puts the placeholder in its place. */
  lemma RemovedKeyIsNoticed(loaded: Snapshot, p: ProviderConfig, adapters: Adapters, next: nat)
    requires p.kind.OpenAiResponses? && p.apiKey != "" && loaded.providers == [p]
    requires Serves(false, Some(loaded), [p.(apiKey := "")], adapters, next)
    ensures Lookup(adapters, p.id) == Some(Unavailable)
  {
    var q := p.(apiKey := "");
    assert Reusable(Some(loaded), q).None?;
    assert FreshFor(false, [q][0], next, adapters[q.id]);
  }

  /** An executable provider whose compared fields did not change keeps the identical adapter. */
  lemma UnchangedExecutableKeepsAdapter(base: Snapshot, providers: seq<ProviderConfig>, adapters: Adapters,
                                        before: ProviderConfig, i: nat)
    requires Complete(Some(base)) && ReusesAll(Some(base), providers, adapters)
    requires before in base.providers && i < |providers|
    requires before.id == providers[i].id && before.kind == providers[i].kind && before.runtime == providers[i].runtime
    requires before.kind.CodexExec? || before.kind.WorkbuddyExec?
    ensures before.id in base.adapters && Lookup(adapters, before.id) == Some(base.adapters[before.id])
  {
    assert before.id in IdsOf(base.providers);
    assert SameRuntime(before, providers[i]);
  }

  /** After a close under a pending update and the swap of that update. */
  lemma ClosedUnderneath(l: Ledger, closed: multiset<nat>, after: multiset<nat>, base: Adapters, staged: Snapshot,
                         first: nat)
    requires Pending(l, base, staged, first)
    requires RetiredOnce(l.retired, closed, Discarded(base, map[]))
    requires RetiredOnce(closed, after, Discarded(map[], staged.adapters))
    ensures forall p :: p in Owned(staged.adapters) ==> (p in after <==> p in Owned(base))
  {
    NothingOwned();
    DiscardedIsDifference(base, map[]);
    DiscardedIsDifference(map[], staged.adapters);
    hide Discarded, Owned;
    forall p | p in Owned(staged.adapters)
      ensures p in after <==> p in Owned(base)
    {
      assert l.retired[p] == 0;
    }
  }

  /**
    A case of it: one Codex provider that an update leaves as it is. The close retires its adapter, and the update
    installs a snapshot that still uses it.
  */
  lemma UnchangedProviderClosedUnderneath(p: ProviderConfig, closed: multiset<nat>, after: multiset<nat>)
    requires p.kind.CodexExec?
    requires RetiredOnce(multiset{}, closed, Discarded(map[p.id := Built(0, true)], map[]))
    requires RetiredOnce(closed, after, Discarded(map[], map[p.id := Built(0, true)]))
    ensures var running := Snapshot([p], map[p.id := Built(0, true)]);
            && Reusable(Some(running), p) == Some(Built(0, true))
            && Pending(Ledger(1, {0}, multiset{}), running.adapters, running, 1)
            && 0 in Owned(running.adapters) && 0 in after
  {
    var adapters: Adapters := map[p.id := Built(0, true)];
    var running := Snapshot([p], adapters);
    var l := Ledger(1, {0}, multiset{});
    assert p in running.providers && SameRuntime(p, p);
    OwnedMeans(adapters);
    assert OwnedAt(adapters, p.id, 0);
    assert Owned(adapters) == {0};
    assert Owned(adapters) + Owned(adapters) == {0};
    assert IdsOf([p]) == {p.id};
    ClosedUnderneath(l, closed, after, adapters, running, 1);
  }
}
