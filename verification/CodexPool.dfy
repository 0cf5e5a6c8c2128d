/**
  The Codex adapter's worker pool. It has no counter: its bound comes from the slots alone. `Adapter` holds the fields
  guarded by the mutex; `System` interleaves its sections with the requests that hold a slot and with dying workers.
*/
module CodexPool {
  import opened Heads
  import opened IdleList
  import opened Wrappers

  /** The mutex-guarded fields. */
  datatype Pool = Pool(idle: seq<Worker>, retired: bool)

  datatype AcquireOutcome = Refused | Taken(worker: Worker) | MustCreate

  // ------------------------------------------------ what each locked section does

  function TryAcquire(p: Pool, closed: set<Worker>): (Pool, AcquireOutcome) {
    if p.retired then (p, Refused) else
    var (rest, found) := TakeNewest(p.idle, closed);
    (p.(idle := rest), if found.Some? then Taken(found.value) else MustCreate)
  }

  /** Giving a worker back; true when it went to the idle list, otherwise it is closed. */
  function Release(p: Pool, worker: Worker, reusable: bool, closed: set<Worker>): (Pool, bool) {
    if reusable && !p.retired && worker !in closed then (p.(idle := p.idle + [worker]), true) else (p, false)
  }

  function RetireAll(p: Pool): Pool {
    Pool([], true)
  }

  /** A live idle worker is taken, the newest one; a usable worker is kept unless the adapter is retired. */
  lemma SectionsExactly(p: Pool, worker: Worker, reusable: bool, closed: set<Worker>) returns (k: int)
    ensures -1 <= k < |p.idle| && (forall i :: k < i < |p.idle| ==> p.idle[i] in closed)
    ensures k >= 0 ==> p.idle[k] !in closed
    ensures var (q, outcome) := TryAcquire(p, closed);
            && q.retired == p.retired
            && if p.retired then outcome == Refused && q.idle == p.idle
               else if k >= 0 then outcome == Taken(p.idle[k]) && q.idle == p.idle[..k]
               else outcome == MustCreate && q.idle == []
    ensures var (q, kept) := Release(p, worker, reusable, closed);
            && (kept <==> reusable && !p.retired && worker !in closed) && q.retired == p.retired
            && q.idle == if kept then p.idle + [worker] else p.idle
    ensures RetireAll(p).idle == [] && RetireAll(p).retired
  {
    var (rest, found) := TakeNewest(p.idle, closed);
    k := if found.Some? then |rest| else -1;
  }

  class Adapter {
    var idle: seq<Worker>
    var retired: bool

    ghost function State(): Pool
      reads this
    {
      Pool(idle, retired)
    }

    constructor ()
      ensures State() == Pool([], false)
    {
      idle, retired := [], false;
    }

    method AcquireLocked(closed: set<Worker>) returns (outcome: AcquireOutcome)
      modifies this`idle
      ensures (State(), outcome) == TryAcquire(old(State()), closed)
    {
      if retired {
        return Refused;
      }
      while idle != []
        invariant TakeNewest(idle, closed) == TakeNewest(old(idle), closed)
        decreases |idle|
      {
        var last := idle[|idle| - 1];
        idle := idle[..|idle| - 1];
        if last !in closed {
          return Taken(last);
        }
      }
      outcome := MustCreate;
    }

    method ReleaseLocked(worker: Worker, reusable: bool, closed: set<Worker>) returns (kept: bool)
      modifies this`idle
      ensures (State(), kept) == Release(old(State()), worker, reusable, closed)
    {
      if reusable && !retired && worker !in closed {
        idle := idle + [worker];
        return true;
      }
      kept := false;
    }

    method RetireLocked() returns (toClose: seq<Worker>)
      modifies this
      ensures State() == RetireAll(old(State())) && toClose == old(idle)
    {
      retired, toClose, idle := true, idle, [];
    }
  }

  // ------------------------------------------------ the whole system

  /** Where a request that holds a slot stands. */
  datatype Phase = Choosing | Direct | Creating | Holding(worker: Worker) | Leaving

  /** `created` workers exist so far; `closed` ones have died or are being closed. */
  datatype System = System(cap: nat, pool: Pool, requests: map<nat, Phase>, closed: set<Worker>, created: nat)

  datatype Event =
    | Enter(r: nat)
    | GoDirect(r: nat)
    | Acquire(r: nat)
    | Created(r: nat, ok: bool)
    | Finish(r: nat, reusable: bool)
    | EndDirect(r: nat)
    | Leave(r: nat)
    | Retire
    | Dies(worker: Worker)

  predicate Enabled(s: System, e: Event) {
    match e
    case Enter(r) => r !in s.requests && |s.requests| < s.cap
    case GoDirect(r) => r in s.requests && s.requests[r].Choosing?
    case Acquire(r) => r in s.requests && s.requests[r].Choosing?
    case Created(r, _) => r in s.requests && s.requests[r].Creating?
    case Finish(r, _) => r in s.requests && s.requests[r].Holding?
    case EndDirect(r) => r in s.requests && s.requests[r].Direct?
    case Leave(r) => r in s.requests && s.requests[r].Leaving?
    case Retire => true
    case Dies(w) => w < s.created
  }

  function AcquirePhase(outcome: AcquireOutcome): Phase {
    match outcome
    case Refused => Leaving
    case Taken(w) => Holding(w)
    case MustCreate => Creating
  }

  /** Retirement and the death of a worker can come at any time, and a free slot lets a request in. */
  lemma AlwaysPossible(s: System, r: nat, w: Worker)
    ensures Enabled(s, Retire) && (w < s.created ==> Enabled(s, Dies(w)))
    ensures r !in s.requests && |s.requests| < s.cap ==> Enabled(s, Enter(r))
    ensures r in s.requests ==>
              match s.requests[r]
              case Choosing => Enabled(s, GoDirect(r)) && Enabled(s, Acquire(r))
              case Direct => Enabled(s, EndDirect(r))
              case Creating => Enabled(s, Created(r, true)) && Enabled(s, Created(r, false))
              case Holding(_) => Enabled(s, Finish(r, true)) && Enabled(s, Finish(r, false))
              case Leaving => Enabled(s, Leave(r))
  {
  }

  function Step(s: System, e: Event): System
    requires Enabled(s, e)
  {
    match e
    case Enter(r) => s.(requests := s.requests[r := Choosing])
    case GoDirect(r) => s.(requests := s.requests[r := Direct])
    case Acquire(r) =>
      var (p, outcome) := TryAcquire(s.pool, s.closed);
      s.(pool := p, requests := s.requests[r := AcquirePhase(outcome)])
    case Created(r, ok) =>
      s.(requests := s.requests[r := if ok then Holding(s.created) else Leaving],
         created := if ok then s.created + 1 else s.created)
    case Finish(r, reusable) =>
      var w := s.requests[r].worker;
      var (p, kept) := Release(s.pool, w, reusable, s.closed);
      s.(pool := p, requests := s.requests[r := Leaving], closed := if kept then s.closed else s.closed + {w})
    case EndDirect(r) => s.(requests := s.requests[r := Leaving])
    case Leave(r) => s.(requests := s.requests - {r})
    case Retire => s.(pool := RetireAll(s.pool), closed := s.closed + set w | w in s.pool.idle)
    case Dies(w) => s.(closed := s.closed + {w})
  }

  predicate Runs(s: System, events: seq<Event>)
    decreases |events|
  {
    events == [] || (Enabled(s, events[0]) && Runs(Step(s, events[0]), events[1..]))
  }

  function After(s: System, events: seq<Event>): System
    requires Runs(s, events)
    decreases |events|
  {
    if events == [] then s else After(Step(s, events[0]), events[1..])
  }

  // ------------------------------------------------ the invariant

  predicate IsEngaged(phase: Phase) {
    phase.Holding? || phase.Creating?
  }

  /** Requests that have a worker or are making one. */
  ghost function Engaged(m: map<nat, Phase>): set<nat> {
    Where(m, IsEngaged)
  }

  ghost predicate Bounded(s: System) {
    |s.requests| <= s.cap && |s.pool.idle| + |Engaged(s.requests)| <= s.cap
  }

  ghost predicate HeldBy(s: System, r: nat, w: Worker) {
    r in s.requests && s.requests[r] == Holding(w)
  }

  /** Every created worker is idle, held by one request, or closed; no worker is in two hands. */
  ghost predicate Owned(s: System) {
    && (forall i, j :: 0 <= i < j < |s.pool.idle| ==> s.pool.idle[i] != s.pool.idle[j])
    && (forall w :: w in s.pool.idle || w in s.closed ==> w < s.created)
    && (forall r: nat, w: Worker :: HeldBy(s, r, w) ==> w < s.created && w !in s.pool.idle)
    && (forall r: nat, q: nat, w: Worker :: HeldBy(s, r, w) && HeldBy(s, q, w) ==> r == q)
    && (forall w: Worker :: w < s.created ==> w in s.pool.idle || w in s.closed || exists r :: HeldBy(s, r, w))
    && (s.pool.retired ==> s.pool.idle == [])
  }

  ghost predicate Inv(s: System) {
    Bounded(s) && Owned(s)
  }

  /** How the counts move when one request changes phase or enters. */
  lemma PhaseMoves(m: map<nat, Phase>, r: nat, phase: Phase)
    ensures |Engaged(m[r := phase])| == |Engaged(m)| - One(r in m && IsEngaged(m[r])) + One(IsEngaged(phase))
    ensures |m[r := phase]| == |m| + One(r !in m)
    ensures |Engaged(m)| <= |m|
    ensures r in m && !IsEngaged(m[r]) ==> |Engaged(m)| < |m|
  {
    hide Where;
    Moves(m, r, phase, IsEngaged);
    Grows(m, r, phase);
    Fits(m, r, IsEngaged);
  }

  /**
    A worker is made only when the idle list was found empty, and then every engaged request owns a slot; no
    other step adds a worker. So idle, held and unfinished workers together never outnumber the slots.
  */
  lemma BoundedStep(s: System, e: Event)
    requires Bounded(s) && Enabled(s, e)
    ensures Bounded(Step(s, e))
  {
    hide Where;
    if e.Leave? {
      Leaves(s.requests, e.r, IsEngaged);
    } else if !e.Retire? && !e.Dies? {
      PhaseMoves(s.requests, e.r, Step(s, e).requests[e.r]);
    }
  }

  /** Changing the phase of one request leaves what the others hold alone. */
  lemma Reassigned(s: System, t: System, r: nat)
    requires forall q :: q != r ==> (q in s.requests <==> q in t.requests)
    requires forall q :: q != r && q in s.requests ==> s.requests[q] == t.requests[q]
    ensures forall q: nat, w: Worker :: q != r ==> (HeldBy(s, q, w) <==> HeldBy(t, q, w))
  {
  }

  lemma OwnedAcquire(s: System, r: nat)
    requires Owned(s) && Enabled(s, Acquire(r))
    ensures Owned(Step(s, Acquire(r)))
  {
    var t := Step(s, Acquire(r));
    var (rest, found) := TakeNewest(s.pool.idle, s.closed);
    Reassigned(s, t, r);
    forall w: Worker | w < t.created
      ensures w in t.pool.idle || w in t.closed || exists q :: HeldBy(t, q, w)
    {
      if w in s.pool.idle && !s.pool.retired {
        var k :| 0 <= k < |s.pool.idle| && s.pool.idle[k] == w;
        if k < |rest| {
          assert rest[k] == w;
        } else if found == Some(w) {
          assert HeldBy(t, r, w);
        }
      } else if q :| HeldBy(s, q, w) {
        assert HeldBy(t, q, w);
      }
    }
  }

  lemma OwnedFinish(s: System, r: nat, reusable: bool)
    requires Owned(s) && Enabled(s, Finish(r, reusable))
    ensures Owned(Step(s, Finish(r, reusable)))
  {
    var t := Step(s, Finish(r, reusable));
    assert HeldBy(s, r, s.requests[r].worker);
    Reassigned(s, t, r);
  }

  lemma OwnedCreated(s: System, r: nat, ok: bool)
    requires Owned(s) && Enabled(s, Created(r, ok))
    ensures Owned(Step(s, Created(r, ok)))
  {
    var t := Step(s, Created(r, ok));
    Reassigned(s, t, r);
    if ok {
      assert HeldBy(t, r, s.created);
    }
  }

  lemma OwnedQuiet(s: System, e: Event)
    requires Owned(s) && Enabled(s, e) && (e.Retire? || e.Dies?)
    ensures Owned(Step(s, e))
  {
    Reassigned(s, Step(s, e), 0);
    assert forall q: nat, w: Worker :: HeldBy(s, q, w) <==> HeldBy(Step(s, e), q, w);
  }

  lemma OwnedPassing(s: System, e: Event)
    requires Owned(s) && Enabled(s, e) && (e.Enter? || e.GoDirect? || e.EndDirect? || e.Leave?)
    ensures Owned(Step(s, e))
  {
    Reassigned(s, Step(s, e), e.r);
    assert forall q: nat, w: Worker :: HeldBy(s, q, w) <==> HeldBy(Step(s, e), q, w);
  }

  /** Every step of every interleaving keeps the bound and the ownership. */
  lemma InvStep(s: System, e: Event)
    requires Inv(s) && Enabled(s, e)
    ensures Inv(Step(s, e))
  {
    BoundedStep(s, e);
    hide Bounded, Owned, Step;
    match e
    case Acquire(r) => OwnedAcquire(s, r);
    case Created(r, ok) => OwnedCreated(s, r, ok);
    case Finish(r, reusable) => OwnedFinish(s, r, reusable);
    case Retire => OwnedQuiet(s, e);
    case Dies(_) => OwnedQuiet(s, e);
    case _ => OwnedPassing(s, e);
  }

  lemma {:induction false} InvAlways(s: System, events: seq<Event>)
    requires Inv(s) && Runs(s, events)
    ensures Inv(After(s, events)) && After(s, events).cap == s.cap
    decreases |events|
  {
    hide Inv;
    if events != [] {
      InvStep(s, events[0]);
      InvAlways(Step(s, events[0]), events[1..]);
    }
  }

  /** From an empty pool, however the requests interleave and whichever workers die. */
  lemma NeverMoreWorkersThanSlots(cap: nat, events: seq<Event>)
    requires Runs(System(cap, Pool([], false), map[], {}, 0), events)
    ensures var s := After(System(cap, Pool([], false), map[], {}, 0), events);
            |s.pool.idle| + |Engaged(s.requests)| <= cap && Owned(s)
  {
    var s := System(cap, Pool([], false), map[], {}, 0);
    assert Engaged(map[]) == {};
    InvAlways(s, events);
  }

  /** A usable worker that comes back is the next one handed out, unless it dies or the adapter retires first. */
  lemma NewestComesFirst(s: System, r: nat, q: nat)
    requires Inv(s) && Enabled(s, Finish(r, true)) && Enabled(s, Acquire(q))
    requires !s.pool.retired && s.requests[r].worker !in s.closed
    ensures var t := Step(s, Finish(r, true));
            Enabled(t, Acquire(q)) && Step(t, Acquire(q)).requests[q] == Holding(s.requests[r].worker)
  {
  }
}
