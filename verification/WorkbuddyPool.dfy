/**
  The pool of long-lived WorkBuddy processes. `Adapter` holds the fields guarded by the adapter's mutex and has
  one method for every section of code that runs under it. `System` adds what runs between those sections:
  the requests holding a slot, background creations, retry timers, and processes that may die at any moment.
*/
module WorkbuddyPool {
  import opened Heads
  import opened IdleList
  import opened Wrappers

  /** The mutex-guarded fields. `ready` numbers the current broadcast channel; older channels are closed. */
  datatype Pool = Pool(idle: seq<Worker>, live: int, creating: int, ready: nat, retired: bool)

  datatype AcquireOutcome = Refused | Taken(worker: Worker) | MustCreate | MustWait(channel: nat)

  // ------------------------------------------------ what each locked section does

  function Notify(p: Pool): Pool {
    p.(ready := p.ready + 1)
  }

  /** How many background creations are started when the pool is below its target. */
  function Missing(p: Pool, target: nat): nat {
    if !p.retired && p.live + p.creating < target then target - p.live - p.creating else 0
  }

  function Schedule(p: Pool, target: nat): Pool {
    p.(creating := p.creating + Missing(p, target))
  }

  function TryAcquire(p: Pool, cap: nat, closed: set<Worker>): (Pool, AcquireOutcome) {
    if p.retired then (p, Refused) else
    var (rest, found) := TakeNewest(p.idle, closed);
    var dropped := |p.idle| - |rest| - (if found.Some? then 1 else 0);
    var q := p.(idle := rest, live := p.live - dropped);
    if found.Some? then (q, Taken(found.value))
    else if q.live + q.creating < cap then (q.(creating := q.creating + 1), MustCreate)
    else (q, MustWait(q.ready))
  }

  /** The end of a creation made by a request; true when the request keeps the worker. */
  /** A live idle worker is taken, the newest one; without one the last resort is a creation, then a wait. */
  lemma AcquireExactly(p: Pool, cap: nat, closed: set<Worker>) returns (k: int)
    ensures -1 <= k < |p.idle| && (forall i :: k < i < |p.idle| ==> p.idle[i] in closed)
    ensures k >= 0 ==> p.idle[k] !in closed
    ensures var (q, outcome) := TryAcquire(p, cap, closed);
            && q.ready == p.ready && q.retired == p.retired
            && if p.retired then outcome == Refused && q == p
               else if k >= 0 then
                 && outcome == Taken(p.idle[k]) && q.idle == p.idle[..k] && q.creating == p.creating
                 && q.live == p.live - (|p.idle| - 1 - k)
               else
                 && q.idle == [] && q.live == p.live - |p.idle|
                 && if q.live + p.creating < cap then outcome == MustCreate && q.creating == p.creating + 1
                    else outcome == MustWait(p.ready) && q.creating == p.creating
  {
    var (rest, found) := TakeNewest(p.idle, closed);
    k := if found.Some? then |rest| else -1;
  }

  function EndCreate(p: Pool, target: nat, created: bool): (Pool, bool) {
    var q := p.(creating := p.creating - 1);
    if created && !q.retired then (Notify(q.(live := q.live + 1)), true)
    else (Schedule(Notify(q), target), false)
  }

  /** Giving a worker back; true when it went to the idle list. */
  function Release(p: Pool, cap: nat, target: nat, worker: Worker, reusable: bool, closed: set<Worker>): (Pool, bool) {
    if reusable && !p.retired && worker !in closed && |p.idle| < cap then
      (Notify(p.(idle := p.idle + [worker])), true)
    else
      (Schedule(Notify(p.(live := p.live - 1)), target), false)
  }

  /** The end of a background creation; true when the worker went to the idle list. */
  function EndReplenish(p: Pool, worker: Option<Worker>): (Pool, bool) {
    var q := p.(creating := p.creating - 1);
    if worker.Some? && !q.retired then (Notify(q.(live := q.live + 1, idle := q.idle + [worker.value])), true)
    else (Notify(q), false)
  }

  function RetireAll(p: Pool): Pool {
    Notify(p.(retired := true, live := p.live - |p.idle|, idle := []))
  }

  /** The adapter as an object: its methods run between taking and releasing the mutex. */
  /** Up to the target, every worker that is neither live nor being created is to be created. */
  predicate Topped(p: Pool, q: Pool, target: nat) {
    q.creating == if p.retired || p.live + p.creating >= target then p.creating else target - p.live
  }

  /** What each locked section does to the counters and the idle list, and that it wakes everyone. */
  lemma SectionsExactly(p: Pool, cap: nat, target: nat, worker: Worker, reusable: bool, closed: set<Worker>)
    ensures var (q, kept) := EndCreate(p, target, reusable);
            && (kept <==> reusable && !p.retired) && q.ready == p.ready + 1 && q.idle == p.idle
            && q.retired == p.retired && q.live == p.live + (if kept then 1 else 0)
            && if kept then q.creating == p.creating - 1 else Topped(p.(creating := p.creating - 1), q, target)
    ensures var (q, kept) := Release(p, cap, target, worker, reusable, closed);
            && (kept <==> reusable && !p.retired && worker !in closed && |p.idle| < cap)
            && q.ready == p.ready + 1 && q.retired == p.retired
            && q.idle == (if kept then p.idle + [worker] else p.idle) && q.live == p.live - (if kept then 0 else 1)
            && if kept then q.creating == p.creating else Topped(q.(creating := p.creating), q, target)
    ensures var (q, kept) := EndReplenish(p, if reusable then Some(worker) else None);
            && (kept <==> reusable && !p.retired) && q.ready == p.ready + 1 && q.retired == p.retired
            && q.idle == (if kept then p.idle + [worker] else p.idle) && q.live == p.live + (if kept then 1 else 0)
            && q.creating == p.creating - 1
    ensures var q := RetireAll(p);
            && q.retired && q.idle == [] && q.live == p.live - |p.idle| && q.creating == p.creating
            && q.ready == p.ready + 1
    ensures Topped(p, Schedule(p, target), target) && Schedule(p, target).idle == p.idle
    ensures Schedule(p, target).live == p.live && Schedule(p, target).ready == p.ready
  {
  }

  class Adapter {
    const cap: nat
    const target: nat
    var idle: seq<Worker>
    var live: int
    var creating: int
    var ready: nat
    var retired: bool

    ghost function State(): Pool
      reads this
    {
      Pool(idle, live, creating, ready, retired)
    }

    /** Starts with an empty pool and `target` background creations under way. */
    constructor (maxConcurrency: nat)
      ensures cap == (if maxConcurrency == 0 then 2 else maxConcurrency)
      ensures target == if cap < 2 then cap else 2
      ensures State() == Pool([], 0, target, 0, false)
    {
      cap := if maxConcurrency == 0 then 2 else maxConcurrency;
      target := if maxConcurrency == 1 then 1 else 2;
      idle, live, creating, ready, retired := [], 0, 0, 0, false;
      new;
      assert State() == Pool([], 0, 0, 0, false);
      var spawned := ScheduleReplenishLocked();
      assert State() == Pool([], 0, target, 0, false);
    }

    method NotifyLocked()
      modifies this`ready
      ensures State() == Notify(old(State()))
    {
      ready := ready + 1;
    }

    method ScheduleReplenishLocked() returns (spawned: nat)
      modifies this`creating
      ensures State() == Schedule(old(State()), target)
      ensures spawned == Missing(old(State()), target)
    {
      spawned := 0;
      while !retired && live + creating < target
        invariant creating == old(creating) + spawned
        invariant spawned <= Missing(old(State()), target)
        decreases target - live - creating
      {
        creating := creating + 1;
        spawned := spawned + 1;
      }
    }

    method Retire() returns (toClose: seq<Worker>)
      modifies this
      ensures State() == RetireAll(old(State()))
      ensures toClose == old(idle)
    {
      retired := true;
      toClose := idle;
      idle := [];
      live := live - |toClose|;
      NotifyLocked();
    }

    /** One pass of the acquire loop, up to the point where the mutex is released. */
    method AcquireLocked(closed: set<Worker>) returns (outcome: AcquireOutcome)
      modifies this
      ensures (State(), outcome) == TryAcquire(old(State()), cap, closed)
    {
      if retired {
        return Refused;
      }
      while idle != []
        invariant TakeNewest(idle, closed) == TakeNewest(old(idle), closed)
        invariant |idle| <= |old(idle)| && live == old(live) - (|old(idle)| - |idle|)
        invariant creating == old(creating) && ready == old(ready) && !retired
        decreases |idle|
      {
        var worker := idle[|idle| - 1];
        idle := idle[..|idle| - 1];
        if worker !in closed {
          return Taken(worker);
        }
        live := live - 1;
      }
      if live + creating < cap {
        creating := creating + 1;
        return MustCreate;
      }
      outcome := MustWait(ready);
    }

    method EndCreateLocked(created: bool) returns (kept: bool, spawned: nat)
      modifies this
      ensures (State(), kept) == EndCreate(old(State()), target, created)
      ensures spawned == if kept then 0 else Missing(old(State().(creating := creating - 1)), target)
    {
      creating := creating - 1;
      if created && !retired {
        live := live + 1;
        NotifyLocked();
        return true, 0;
      }
      NotifyLocked();
      spawned := ScheduleReplenishLocked();
      kept := false;
    }

    method ReleaseWorker(worker: Worker, reusable: bool, closed: set<Worker>) returns (kept: bool, spawned: nat)
      modifies this
      ensures (State(), kept) == Release(old(State()), cap, target, worker, reusable, closed)
      ensures spawned == if kept then 0 else Missing(old(State().(live := live - 1)), target)
    {
      if reusable && !retired && worker !in closed && |idle| < cap {
        idle := idle + [worker];
        NotifyLocked();
        return true, 0;
      }
      live := live - 1;
      NotifyLocked();
      spawned := ScheduleReplenishLocked();
      kept := false;
    }

    /** `retry` asks for a timer that schedules the missing workers again. */
    method ReplenishDone(worker: Option<Worker>) returns (kept: bool, retry: bool)
      modifies this
      ensures (State(), kept) == EndReplenish(old(State()), worker)
      ensures retry == (worker.None? && !old(retired))
    {
      creating := creating - 1;
      if worker.Some? && !retired {
        live := live + 1;
        idle := idle + [worker.value];
        NotifyLocked();
        return true, false;
      }
      NotifyLocked();
      kept := false;
      retry := worker.None? && !retired;
    }
  }

  // ------------------------------------------------ the whole system

  /** Where a request that holds a slot stands. */
  datatype Phase = Acquiring | Creating | Parked(channel: nat) | Holding(worker: Worker) | Leaving

  /**
    `created` workers exist so far, numbered from zero; `closing` are those a section decided to close and
    whose process has not ended yet.
  */
  datatype System = System(cap: nat, pool: Pool, requests: map<nat, Phase>, replenishers: nat, timers: nat,
                           closing: set<Worker>, closed: set<Worker>, created: nat)

  datatype Event =
    | Enter(r: nat)
    | Acquire(r: nat)
    | CreateDone(r: nat, ok: bool)
    | Wake(r: nat)
    | Cancel(r: nat)
    | Finish(r: nat, reusable: bool)
    | Leave(r: nat)
    | ReplenishDone(ok: bool)
    | TimerFires
    | Retire
    | Dies(worker: Worker)
    | CloseDone(worker: Worker)

  function Target(s: System): nat {
    if s.cap < 2 then s.cap else 2
  }

  function Init(cap: nat): System {
    var s := System(cap, Pool([], 0, 0, 0, false), map[], 0, 0, {}, {}, 0);
    s.(pool := Schedule(s.pool, Target(s)), replenishers := Missing(s.pool, Target(s)))
  }

  /** A system starts as its pool does: empty, with the target of creations under way. */
  lemma InitExactly(cap: nat)
    ensures var s, target := Init(cap), if cap < 2 then cap else 2;
            && s.pool == Pool([], 0, target, 0, false) && s.replenishers == target && s.cap == cap
            && s.requests == map[] && s.closing == {} && s.closed == {} && s.created == 0 && s.timers == 0
  {
  }

  predicate Enabled(s: System, e: Event) {
    match e
    case Enter(r) => r !in s.requests && |s.requests| < s.cap
    case Acquire(r) => r in s.requests && s.requests[r].Acquiring?
    case CreateDone(r, _) => r in s.requests && s.requests[r].Creating?
    case Wake(r) => r in s.requests && s.requests[r].Parked? && s.requests[r].channel != s.pool.ready
    case Cancel(r) => r in s.requests && s.requests[r].Parked?
    case Finish(r, _) => r in s.requests && s.requests[r].Holding?
    case Leave(r) => r in s.requests && s.requests[r].Leaving?
    case ReplenishDone(_) => s.replenishers > 0
    case TimerFires => s.timers > 0
    case Retire => true
    case Dies(w) => w < s.created
    case CloseDone(w) => w in s.closing
  }

  function AcquirePhase(outcome: AcquireOutcome): Phase {
    match outcome
    case Refused => Leaving
    case Taken(w) => Holding(w)
    case MustCreate => Creating
    case MustWait(channel) => Parked(channel)
  }

  /** Nothing but what a request or a creation waits for holds it up. */
  lemma AlwaysPossible(s: System, r: nat, w: Worker)
    ensures Enabled(s, Retire) && (w < s.created ==> Enabled(s, Dies(w)))
    ensures w in s.closing ==> Enabled(s, CloseDone(w))
    ensures s.replenishers > 0 ==> Enabled(s, ReplenishDone(true)) && Enabled(s, ReplenishDone(false))
    ensures s.timers > 0 ==> Enabled(s, TimerFires)
    ensures r !in s.requests && |s.requests| < s.cap ==> Enabled(s, Enter(r))
    ensures r in s.requests ==>
              match s.requests[r]
              case Acquiring => Enabled(s, Acquire(r))
              case Creating => Enabled(s, CreateDone(r, true)) && Enabled(s, CreateDone(r, false))
              case Parked(channel) => Enabled(s, Cancel(r)) && (channel != s.pool.ready ==> Enabled(s, Wake(r)))
              case Holding(_) => Enabled(s, Finish(r, true)) && Enabled(s, Finish(r, false))
              case Leaving => Enabled(s, Leave(r))
  {
  }

  function Step(s: System, e: Event): System
    requires Enabled(s, e)
  {
    match e
    case Enter(r) => s.(requests := s.requests[r := Acquiring])
    case Acquire(r) =>
      var (p, outcome) := TryAcquire(s.pool, s.cap, s.closed);
      s.(pool := p, requests := s.requests[r := AcquirePhase(outcome)])
    case CreateDone(r, ok) =>
      var (p, kept) := EndCreate(s.pool, Target(s), ok);
      var spawned := if kept then 0 else Missing(s.pool.(creating := s.pool.creating - 1), Target(s));
      s.(pool := p, replenishers := s.replenishers + spawned,
         requests := s.requests[r := if kept then Holding(s.created) else Leaving],
         closing := if ok && !kept then s.closing + {s.created} else s.closing,
         created := if ok then s.created + 1 else s.created)
    case Wake(r) => s.(requests := s.requests[r := Acquiring])
    case Cancel(r) => s.(requests := s.requests[r := Leaving])
    case Finish(r, reusable) =>
      var w := s.requests[r].worker;
      var (p, kept) := Release(s.pool, s.cap, Target(s), w, reusable, s.closed);
      var spawned := if kept then 0 else Missing(s.pool.(live := s.pool.live - 1), Target(s));
      s.(pool := p, replenishers := s.replenishers + spawned, requests := s.requests[r := Leaving],
         closing := if kept then s.closing else s.closing + {w})
    case Leave(r) => s.(requests := s.requests - {r})
    case ReplenishDone(ok) =>
      var (p, kept) := EndReplenish(s.pool, if ok then Some(s.created) else None);
      s.(pool := p, replenishers := s.replenishers - 1,
         closing := if ok && !kept then s.closing + {s.created} else s.closing,
         created := if ok then s.created + 1 else s.created,
         timers := if !ok && !p.retired then s.timers + 1 else s.timers)
    case TimerFires =>
      s.(pool := Schedule(s.pool, Target(s)), timers := s.timers - 1,
         replenishers := s.replenishers + Missing(s.pool, Target(s)))
    case Retire => s.(pool := RetireAll(s.pool), closing := s.closing + set w | w in s.pool.idle)
    case Dies(w) => s.(closed := s.closed + {w})
    case CloseDone(w) => s.(closed := s.closed + {w}, closing := s.closing - {w})
  }

  predicate Runs(s: System, events: seq<Event>)
    decreases |events|
  {
    events == [] || (Enabled(s, events[0]) && Runs(Step(s, events[0]), events[1..]))
  }

  function After(s: System, events: seq<Event>): System
    requires Runs(s, events)
    decreases |events|
  {
    if events == [] then s else After(Step(s, events[0]), events[1..])
  }

  // ------------------------------------------------ the invariant

  predicate IsHolding(phase: Phase) {
    phase.Holding?
  }

  predicate IsCreating(phase: Phase) {
    phase.Creating?
  }

  ghost function Holders(m: map<nat, Phase>): set<nat> {
    Where(m, IsHolding)
  }

  ghost function Creators(m: map<nat, Phase>): set<nat> {
    Where(m, IsCreating)
  }

  /** Requests asleep on the channel that the next notification will close. */
  ghost function Waiters(s: System): set<nat> {
    set r | r in s.requests && s.requests[r] == Parked(s.pool.ready)
  }

  /** The two counters are exact and the number of workers, present or expected, is bounded. */
  ghost predicate Counted(s: System) {
    && 1 <= s.cap && |s.requests| <= s.cap
    && s.pool.live == |s.pool.idle| + |Holders(s.requests)|
    && s.pool.creating == |Creators(s.requests)| + s.replenishers
    && s.pool.live + s.pool.creating <= s.cap
  }

  ghost predicate HeldBy(s: System, r: nat, w: Worker) {
    r in s.requests && s.requests[r] == Holding(w)
  }

  /** Every created worker is idle, held by one request, or on its way out; no worker is in two places. */
  ghost predicate Owned(s: System) {
    && (forall i, j :: 0 <= i < j < |s.pool.idle| ==> s.pool.idle[i] != s.pool.idle[j])
    && (forall w :: w in s.pool.idle || w in s.closing || w in s.closed ==> w < s.created)
    && (forall w :: w in s.pool.idle ==> w !in s.closing)
    && (forall r: nat, w: Worker :: HeldBy(s, r, w) ==> w < s.created && w !in s.pool.idle && w !in s.closing)
    && (forall r: nat, q: nat, w: Worker :: HeldBy(s, r, w) && HeldBy(s, q, w) ==> r == q)
    && (forall w: Worker :: w < s.created ==>
          w in s.pool.idle || w in s.closing || w in s.closed || exists r :: HeldBy(s, r, w))
    && (s.pool.retired ==> s.pool.idle == [])
  }

  /** A request sleeps on the current channel only while there is nothing it could do. */
  ghost predicate NoLostWakeup(s: System) {
    forall r :: r in s.requests && s.requests[r].Parked? ==>
      && s.requests[r].channel <= s.pool.ready
      && (s.requests[r].channel == s.pool.ready ==>
            !s.pool.retired && s.pool.idle == [] && s.pool.live + s.pool.creating >= s.cap)
  }

  ghost predicate Inv(s: System) {
    Counted(s) && Owned(s) && NoLostWakeup(s)
  }

  /** How the head counts move when one request changes phase or enters. */
  lemma PhaseMoves(m: map<nat, Phase>, r: nat, phase: Phase)
    ensures |Holders(m[r := phase])| == |Holders(m)| - One(r in m && m[r].Holding?) + One(phase.Holding?)
    ensures |Creators(m[r := phase])| == |Creators(m)| - One(r in m && m[r].Creating?) + One(phase.Creating?)
    ensures |m[r := phase]| == |m| + One(r !in m)
  {
    Moves(m, r, phase, IsHolding);
    Moves(m, r, phase, IsCreating);
    Grows(m, r, phase);
  }

  lemma PhaseLeaves(m: map<nat, Phase>, r: nat)
    requires r in m && m[r].Leaving?
    ensures |Holders(m - {r})| == |Holders(m)| && |Creators(m - {r})| == |Creators(m)| && |m - {r}| == |m| - 1
  {
    Leaves(m, r, IsHolding);
    Leaves(m, r, IsCreating);
  }

  lemma CountedAcquire(s: System, r: nat)
    requires Counted(s) && Enabled(s, Acquire(r))
    ensures Counted(Step(s, Acquire(r)))
  {
    var (p, outcome) := TryAcquire(s.pool, s.cap, s.closed);
    PhaseMoves(s.requests, r, AcquirePhase(outcome));
    hide Holders, Creators, TakeNewest;
  }

  lemma CountedCreate(s: System, r: nat, ok: bool)
    requires Counted(s) && Enabled(s, CreateDone(r, ok))
    ensures Counted(Step(s, CreateDone(r, ok)))
  {
    var (p, kept) := EndCreate(s.pool, Target(s), ok);
    PhaseMoves(s.requests, r, if kept then Holding(s.created) else Leaving);
    hide Holders, Creators;
  }

  lemma CountedFinish(s: System, r: nat, reusable: bool)
    requires Counted(s) && Enabled(s, Finish(r, reusable))
    ensures Counted(Step(s, Finish(r, reusable)))
  {
    PhaseMoves(s.requests, r, Leaving);
    hide Holders, Creators;
  }

  lemma CountedStep(s: System, e: Event)
    requires Counted(s) && Enabled(s, e)
    ensures Counted(Step(s, e))
  {
    hide Holders, Creators, TryAcquire, EndCreate, Release;
    match e
    case Enter(r) => PhaseMoves(s.requests, r, Acquiring);
    case Acquire(r) => CountedAcquire(s, r);
    case CreateDone(r, ok) => CountedCreate(s, r, ok);
    case Wake(r) => PhaseMoves(s.requests, r, Acquiring);
    case Cancel(r) => PhaseMoves(s.requests, r, Leaving);
    case Finish(r, reusable) => CountedFinish(s, r, reusable);
    case Leave(r) => PhaseLeaves(s.requests, r);
    case _ => CountedBackground(s, e);
  }

  lemma CountedBackground(s: System, e: Event)
    requires Counted(s) && Enabled(s, e)
    requires e.ReplenishDone? || e.TimerFires? || e.Retire? || e.Dies? || e.CloseDone?
    ensures Counted(Step(s, e))
  {
    hide Holders, Creators, TryAcquire, EndCreate, Release;
  }

  /** The idle workers behind place `k` are dead. */
  ghost predicate DeadBehind(s: System, k: int) {
    -1 <= k < |s.pool.idle| && forall i :: k < i < |s.pool.idle| ==> s.pool.idle[i] in s.closed
  }

  /** The idle list is cut at a dead end, and one request takes the last worker it had, or none. */
  lemma OwnedTaken(s: System, s': System, r: nat, k: nat)
    requires Owned(s) && DeadBehind(s, k) && !s.pool.retired && !s'.pool.retired
    requires r in s.requests && !s.requests[r].Holding?
    requires s'.requests == s.requests[r := Holding(s.pool.idle[k])] && s'.pool.idle == s.pool.idle[..k]
    requires s'.closing == s.closing && s'.closed == s.closed && s'.created == s.created
    ensures Owned(s')
  {
    var taken := s.pool.idle[k];
    forall q: nat, w: Worker
      ensures HeldBy(s', q, w) <==> (if q == r then w == taken else HeldBy(s, q, w))
    {
    }
    assert taken !in s'.pool.idle;
    forall w: Worker | w < s'.created
      ensures w in s'.pool.idle || w in s'.closing || w in s'.closed || exists q :: HeldBy(s', q, w)
    {
      if w in s.pool.idle {
        var i :| 0 <= i < |s.pool.idle| && s.pool.idle[i] == w;
        if i < k {
          assert s'.pool.idle[i] == w;
        } else if i == k {
          assert HeldBy(s', r, w);
        }
      } else if q :| HeldBy(s, q, w) {
        assert q != r && HeldBy(s', q, w);
      }
    }
  }

  lemma OwnedEmptied(s: System, s': System, r: nat)
    requires Owned(s) && DeadBehind(s, -1)
    requires r in s.requests && !s.requests[r].Holding? && r in s'.requests && !s'.requests[r].Holding?
    requires s'.requests == s.requests[r := s'.requests[r]] && s'.pool.idle == []
    requires s'.closing == s.closing && s'.closed == s.closed && s'.created == s.created
    ensures Owned(s')
  {
    forall q: nat, w: Worker
      ensures HeldBy(s', q, w) <==> HeldBy(s, q, w)
    {
    }
    hide HeldBy;
  }

  lemma OwnedAcquire(s: System, r: nat)
    requires Inv(s) && Enabled(s, Acquire(r))
    ensures Owned(Step(s, Acquire(r)))
  {
    hide TryAcquire, Owned, Counted, NoLostWakeup;
    var s' := Step(s, Acquire(r));
    var k := AcquireExactly(s.pool, s.cap, s.closed);
    if s.pool.retired {
      RetiredIdle(s);
      OwnedEmptied(s, s', r);
    } else if k >= 0 {
      OwnedTaken(s, s', r, k);
    } else {
      OwnedEmptied(s, s', r);
    }
  }

  lemma RetiredIdle(s: System)
    requires Owned(s) && s.pool.retired
    ensures s.pool.idle == []
  {
  }

  lemma OwnedFinish(s: System, r: nat, reusable: bool)
    requires Inv(s) && Enabled(s, Finish(r, reusable))
    ensures Owned(Step(s, Finish(r, reusable)))
  {
    var s' := Step(s, Finish(r, reusable));
    assert HeldBy(s, r, s.requests[r].worker);
    Reassigned(s, s', r);
  }

  lemma OwnedCreate(s: System, r: nat, ok: bool)
    requires Inv(s) && Enabled(s, CreateDone(r, ok))
    ensures Owned(Step(s, CreateDone(r, ok)))
  {
    var s' := Step(s, CreateDone(r, ok));
    Reassigned(s, s', r);
    if s'.requests[r].Holding? {
      assert HeldBy(s', r, s.created);
    }
  }

  /** Changing the phase of one request leaves what the others hold alone. */
  lemma Reassigned(s: System, s': System, r: nat)
    requires forall q :: q != r ==> (q in s.requests <==> q in s'.requests)
    requires forall q :: q != r && q in s.requests ==> s.requests[q] == s'.requests[q]
    ensures forall q: nat, w: Worker :: q != r ==> (HeldBy(s, q, w) <==> HeldBy(s', q, w))
  {
  }

  lemma OwnedReplenish(s: System, ok: bool)
    requires Inv(s) && Enabled(s, ReplenishDone(ok))
    ensures Owned(Step(s, ReplenishDone(ok)))
  {
    hide Counted, NoLostWakeup;
    var s' := Step(s, ReplenishDone(ok));
    Reassigned(s, s', 0);
    assert forall q: nat, w: Worker :: HeldBy(s, q, w) <==> HeldBy(s', q, w);
    assert forall i :: 0 <= i < |s.pool.idle| ==> s.pool.idle[i] in s.pool.idle;
    assert s.created !in s.pool.idle && s.created !in s.closing;
    if ok && !s.pool.retired {
      assert s'.pool.idle == s.pool.idle + [s.created];
      assert forall w :: w in s'.pool.idle <==> w in s.pool.idle || w == s.created;
    }
  }

  lemma OwnedQuiet(s: System, e: Event)
    requires Inv(s) && Enabled(s, e)
    requires e.TimerFires? || e.Retire? || e.Dies? || e.CloseDone?
    ensures Owned(Step(s, e))
  {
    var s' := Step(s, e);
    Reassigned(s, s', 0);
    assert forall q: nat, w: Worker :: HeldBy(s, q, w) <==> HeldBy(s', q, w);
  }

  lemma OwnedStep(s: System, e: Event)
    requires Inv(s) && Enabled(s, e)
    ensures Owned(Step(s, e))
  {
    hide TryAcquire, EndCreate, Release, EndReplenish, Counted, NoLostWakeup, Owned;
    match e
    case Acquire(r) => OwnedAcquire(s, r);
    case CreateDone(r, ok) => OwnedCreate(s, r, ok);
    case Finish(r, reusable) => OwnedFinish(s, r, reusable);
    case Enter(_) => OwnedPassing(s, e);
    case Wake(_) => OwnedPassing(s, e);
    case Cancel(_) => OwnedPassing(s, e);
    case Leave(_) => OwnedPassing(s, e);
    case ReplenishDone(ok) => OwnedReplenish(s, ok);
    case _ => OwnedQuiet(s, e);
  }

  /** Requests that come, go and wake up hold nothing. */
  lemma OwnedPassing(s: System, e: Event)
    requires Inv(s) && Enabled(s, e) && (e.Enter? || e.Wake? || e.Cancel? || e.Leave?)
    ensures Owned(Step(s, e))
  {
    hide Counted, NoLostWakeup;
    Reassigned(s, Step(s, e), e.r);
  }

  lemma WakeupStep(s: System, e: Event)
    requires Inv(s) && Enabled(s, e)
    ensures NoLostWakeup(Step(s, e))
  {
  }

  /** Every step of every interleaving keeps the invariant. */
  lemma InvStep(s: System, e: Event)
    requires Inv(s) && Enabled(s, e)
    ensures Inv(Step(s, e))
  {
    CountedStep(s, e);
    OwnedStep(s, e);
    WakeupStep(s, e);
  }

  /** The invariant holds after any run from a new pool. */
  lemma {:induction false} InvAlways(s: System, events: seq<Event>)
    requires Inv(s) && Runs(s, events)
    ensures Inv(After(s, events))
    decreases |events|
  {
    if events != [] {
      InvStep(s, events[0]);
      InvAlways(Step(s, events[0]), events[1..]);
    }
  }

  // ------------------------------------------------ what the invariant means

  lemma NewPool(cap: nat)
    requires cap >= 1
    ensures Inv(Init(cap))
  {
    assert Holders(map[]) == {} && Creators(map[]) == {};
  }

  /**
    No lost wakeup. In every state of every run there are at least as many background creations under way as
    there are requests asleep on the current channel, so a sleeper is never alone.
  */
  lemma SleepersAreServed(cap: nat, events: seq<Event>)
    requires cap >= 1 && Runs(Init(cap), events)
    ensures After(Init(cap), events).replenishers >= |Waiters(After(Init(cap), events))|
  {
    NewPool(cap);
    InvAlways(Init(cap), events);
    SleepersServedIn(After(Init(cap), events));
  }

  lemma SleepersServedIn(s: System)
    requires Inv(s)
    ensures s.replenishers >= |Waiters(s)|
  {
    hide Owned;
    var w, h, c := Waiters(s), Holders(s.requests), Creators(s.requests);
    if w != {} {
      var r :| r in w;
      assert s.requests[r] == Parked(s.pool.ready);
      assert |w + h + c| == |w| + |h| + |c|;
      assert w + h + c <= s.requests.Keys;
      Subset(w + h + c, s.requests.Keys);
      assert |s.requests.Keys| == |s.requests|;
    }
  }

  /** Every end of a creation, every give-back and the retirement wake all sleepers. */
  lemma EndsWakeEveryone(s: System, e: Event)
    requires Inv(s) && Enabled(s, e)
    requires e.CreateDone? || e.ReplenishDone? || e.Finish? || e.Retire?
    ensures Waiters(Step(s, e)) == {}
    ensures forall r :: r in Waiters(s) ==> Enabled(Step(s, e), Wake(r))
  {
    assert forall r :: r in s.requests && s.requests[r].Parked? ==> s.requests[r].channel <= s.pool.ready;
  }

  /** Giving back a usable worker always keeps it: the idle list can never be full at that point. */
  lemma UsableWorkerIsKept(s: System, r: nat)
    requires Inv(s) && Enabled(s, Finish(r, true))
    requires !s.pool.retired && s.requests[r].worker !in s.closed
    ensures s.requests[r].worker in Step(s, Finish(r, true)).pool.idle
  {
    assert r in Holders(s.requests);
    var p := Release(s.pool, s.cap, Target(s), s.requests[r].worker, true, s.closed).0;
    assert p.idle[|s.pool.idle|] == s.requests[r].worker;
  }

  /** Retirement is final: nothing becomes idle again and no request is handed a worker any more. */
  lemma RetiredForGood(s: System, e: Event)
    requires Inv(s) && Enabled(s, e) && s.pool.retired
    ensures var s' := Step(s, e);
            && s'.pool.retired && s'.pool.idle == []
            && Holders(s'.requests) <= Holders(s.requests)
            && s'.pool.live == |Holders(s'.requests)|
  {
    InvStep(s, e);
  }

  lemma {:induction false} RetiredRun(s: System, events: seq<Event>)
    requires Inv(s) && s.pool.retired && Runs(s, events)
    ensures var s' := After(s, events);
            && s'.pool.retired && s'.pool.idle == []
            && Holders(s'.requests) <= Holders(s.requests)
            && (s'.pool.live == 0 <==> Holders(s'.requests) == {})
    decreases |events|
  {
    if events != [] {
      RetiredForGood(s, events[0]);
      InvStep(s, events[0]);
      RetiredRun(Step(s, events[0]), events[1..]);
    }
  }
}
