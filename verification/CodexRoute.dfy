/**
  Which backend serves a Codex request: the direct Responses route, or the App Server when the direct route is
  blocked or has surely refused. `Adapter` is the object; `System` interleaves the requests, and because the block is
  an atomic integer under no lock, reading the clock and storing a block are two steps.
*/
module CodexRoute {
  import opened Heads
  import opened Wrappers

  /** How long the direct route stays blocked for text requests, in nanoseconds. */
  const MINUTE: int := 60_000_000_000

  /** How a direct attempt ends. `Unsendable` is a request that could not be built; a transport error says nothing. */
  datatype Attempt = NoCredentials | Unsendable | TransportError | Status(code: int)

  predicate Accepted(a: Attempt) {
    a.Status? && 200 <= a.code < 300
  }

  predicate DelegatedStatus(a: Attempt) {
    a.Status? && a.code in {400, 401, 403, 404, 502, 503, 504}
  }

  /** What the adapter takes for a refusal before any generation began. */
  predicate Declined(a: Attempt) {
    a.NoCredentials? || DelegatedStatus(a)
  }

  predicate Blocks(a: Attempt, tool: bool) {
    a.NoCredentials? || (DelegatedStatus(a) && !tool)
  }

  predicate TriesDirect(disableDirect: bool, blockedUntil: int, tool: bool, now: int) {
    !disableDirect && (tool || now >= blockedUntil)
  }

  datatype Verdict = Serve | FallBack | GiveUp

  /** What a request does after its direct attempt. */
  function VerdictOf(a: Attempt, tool: bool): Verdict {
    if Accepted(a) then Serve else if !Declined(a) || tool then GiveUp else FallBack
  }

  // ------------------------------------------------ the adapter

  datatype Route = Direct | AppServer | Refused

  class Adapter {
    const cap: nat
    const disableDirect: bool
    var held: nat
    var directBlockedUntil: int

    constructor (maxConcurrency: nat, disableDirect: bool)
      ensures cap == (if maxConcurrency == 0 then 2 else maxConcurrency)
      ensures this.disableDirect == disableDirect && held == 0 && directBlockedUntil == 0
    {
      cap := if maxConcurrency == 0 then 2 else maxConcurrency;
      this.disableDirect, held, directBlockedUntil := disableDirect, 0, 0;
    }

    method StartDirect(tool: bool, a: Attempt, readAt: int) returns (ok: bool, fallback: bool)
      modifies this`directBlockedUntil
      ensures ok == Accepted(a) && (!ok ==> fallback == Declined(a))
      ensures directBlockedUntil == if Blocks(a, tool) then readAt + MINUTE else old(directBlockedUntil)
      ensures ok <==> a.Status? && a.code / 100 == 2
      ensures fallback <==> a.NoCredentials? || (a.Status? && a.code in {400, 401, 403, 404, 502, 503, 504})
      ensures a.NoCredentials? || (a.Status? && a.code in {400, 401, 403, 404, 502, 503, 504} && !tool) ==>
                directBlockedUntil == readAt + 60_000_000_000
      ensures a.Unsendable? || a.TransportError? || (tool && a.Status?) ==>
                directBlockedUntil == old(directBlockedUntil)
      ensures a.Status? && a.code !in {400, 401, 403, 404, 502, 503, 504} ==>
                directBlockedUntil == old(directBlockedUntil)
    {
      match a
      case NoCredentials =>
        directBlockedUntil := readAt + MINUTE;
        return false, true;
      case Unsendable =>
        return false, false;
      case TransportError =>
        return false, false;
      case Status(code) =>
        if code >= 200 && code < 300 {
          return true, false;
        }
        if code in {400, 401, 403, 404, 502, 503, 504} {
          if !tool {
            directBlockedUntil := readAt + MINUTE;
          }
          return false, true;
        }
        return false, false;
    }

    /**
      One request, undisturbed. `slotFree` is false when the caller leaves before a slot is free; `now` and `readAt` are
      readings of the clock, and `workerMade` says whether a worker can be had. The slot stays taken exactly while the
      request runs.
    */
    method Start(slotFree: bool, tool: bool, now: int, a: Attempt, readAt: int, workerMade: bool) returns (route: Route)
      requires slotFree ==> held < cap
      modifies this
      ensures var tried := slotFree && TriesDirect(disableDirect, old(directBlockedUntil), tool, now);
              && (route.Direct? <==> tried && Accepted(a))
              && (route.AppServer? <==> slotFree && !tool && workerMade && (tried ==> Declined(a)))
              && directBlockedUntil == if tried && Blocks(a, tool) then readAt + MINUTE else old(directBlockedUntil)
      ensures held == old(held) + if route.Refused? then 0 else 1
      ensures var tried := slotFree && !disableDirect && (tool || now >= old(directBlockedUntil));
              && (tried && a.Status? && a.code / 100 == 2 ==> route.Direct?)
              && (route.Direct? ==> tried && a.Status? && a.code / 100 == 2)
              && (route.AppServer? <==>
                    && slotFree && !tool && workerMade
                    && (tried ==> a.NoCredentials? || (a.Status? && a.code in {400, 401, 403, 404, 502, 503, 504})))
              && (tried && a.Status? && a.code / 100 != 2 && a.code !in {400, 401, 403, 404, 502, 503, 504} ==>
                    route.Refused? && held == old(held) && directBlockedUntil == old(directBlockedUntil))
              && (tried && (a.TransportError? || a.Unsendable?) ==>
                    route.Refused? && held == old(held) && directBlockedUntil == old(directBlockedUntil))
              && (tool && !route.Direct? ==> route.Refused?)
              && (!tried ==> directBlockedUntil == old(directBlockedUntil))
    {
      if !slotFree {
        return Refused;
      }
      held := held + 1;
      if !disableDirect && (tool || now >= directBlockedUntil) {
        var ok, fallback := StartDirect(tool, a, readAt);
        if ok {
          return Direct;
        }
        if !fallback || tool {
          held := held - 1;
          return Refused;
        }
      }
      if tool {
        held := held - 1;
        return Refused;
      }
      if !workerMade {
        held := held - 1;
        return Refused;
      }
      route := AppServer;
    }
  }

  // ------------------------------------------------ many requests at once

  /** `Clocked` and `Storing` carry a reading of the clock that has not been used yet. */
  datatype Phase =
    | Waiting
    | Deciding
    | Clocked(at: int)
    | Sending
    | Storing(at: int)
    | NeedsWorker
    | OnDirect
    | OnAppServer

  /** A live request; `attempt` is how its direct attempt ended, if it made one. */
  datatype Live = Live(tool: bool, phase: Phase, attempt: Option<Attempt>)

  /** What happened, in order: blocks and direct requests, each with the reading of the clock it rests on. */
  datatype Entry =
    | Stored(at: int)
    | Sent(at: int, tool: bool)
    | Generated(tool: bool, attempt: Option<Attempt>, direct: bool)

  datatype System = System(cap: nat, disableDirect: bool, clock: int, blockedUntil: int, held: nat,
                           requests: map<nat, Live>, log: seq<Entry>)

  datatype Event =
    | Arrive(r: nat, tool: bool)
    | Enter(r: nat)
    | Abandon(r: nat)
    | ReadClock(r: nat)
    | Decide(r: nat)
    | Answer(r: nat, attempt: Attempt)
    | Store(r: nat)
    | GetWorker(r: nat, ok: bool)
    | Finish(r: nat)
    | Tick(elapsed: nat)

  predicate InPhase(s: System, r: nat, phase: Phase) {
    r in s.requests && s.requests[r].phase == phase
  }

  predicate Enabled(s: System, e: Event) {
    match e
    case Arrive(r, _) => r !in s.requests
    case Enter(r) => InPhase(s, r, Waiting) && s.held < s.cap
    case Abandon(r) => InPhase(s, r, Waiting)
    case ReadClock(r) => InPhase(s, r, Deciding)
    case Decide(r) => r in s.requests && s.requests[r].phase.Clocked?
    case Answer(r, _) => InPhase(s, r, Sending)
    case Store(r) => r in s.requests && s.requests[r].phase.Storing? && s.requests[r].attempt.Some?
    case GetWorker(r, _) => InPhase(s, r, NeedsWorker)
    case Finish(r) => InPhase(s, r, OnDirect) || InPhase(s, r, OnAppServer)
    case Tick(_) => true
  }

  /** Nothing but a free slot holds a request up. */
  lemma AlwaysPossible(s: System, r: nat, tool: bool, a: Attempt, elapsed: nat)
    ensures Enabled(s, Tick(elapsed)) && (r !in s.requests ==> Enabled(s, Arrive(r, tool)))
    ensures r in s.requests ==>
              match s.requests[r].phase
              case Waiting => Enabled(s, Abandon(r)) && (s.held < s.cap ==> Enabled(s, Enter(r)))
              case Deciding => Enabled(s, ReadClock(r))
              case Clocked(_) => Enabled(s, Decide(r))
              case Sending => Enabled(s, Answer(r, a))
              case Storing(_) => s.requests[r].attempt.Some? ==> Enabled(s, Store(r))
              case NeedsWorker => Enabled(s, GetWorker(r, true)) && Enabled(s, GetWorker(r, false))
              case OnDirect => Enabled(s, Finish(r))
              case OnAppServer => Enabled(s, Finish(r))
  {
  }

  function Moved(s: System, r: nat, live: Live): System {
    s.(requests := s.requests[r := live])
  }

  /** The request gives its slot back. */
  function Left(s: System, r: nat): System {
    s.(requests := s.requests - {r}, held := if s.held > 0 then s.held - 1 else 0)
  }

  function Logged(s: System, entry: Entry): System {
    s.(log := s.log + [entry])
  }

  function Judged(s: System, r: nat, live: Live, a: Attempt): System {
    match VerdictOf(a, live.tool)
    case Serve => Moved(Logged(s, Generated(live.tool, Some(a), true)), r, live.(phase := OnDirect))
    case FallBack => Moved(s, r, live.(phase := NeedsWorker))
    case GiveUp => Left(s, r)
  }

  function Decided(s: System, r: nat, live: Live, at: int): System {
    if TriesDirect(s.disableDirect, s.blockedUntil, live.tool, at) then
      Moved(Logged(s, Sent(at, live.tool)), r, live.(phase := Sending))
    else if live.tool then Left(s, r)
    else Moved(s, r, live.(phase := NeedsWorker))
  }

  function Answered(s: System, r: nat, live: Live, a: Attempt): System {
    if Blocks(a, live.tool) then Moved(s, r, live.(phase := Storing(s.clock), attempt := Some(a)))
    else Judged(s, r, live.(attempt := Some(a)), a)
  }

  function Step(s: System, e: Event): System
    requires Enabled(s, e)
  {
    match e
    case Arrive(r, tool) => Moved(s, r, Live(tool, Waiting, None))
    case Enter(r) => Moved(s, r, s.requests[r].(phase := Deciding)).(held := s.held + 1)
    case Abandon(r) => s.(requests := s.requests - {r})
    case ReadClock(r) => Moved(s, r, s.requests[r].(phase := Clocked(s.clock)))
    case Decide(r) => Decided(s, r, s.requests[r], s.requests[r].phase.at)
    case Answer(r, a) => Answered(s, r, s.requests[r], a)
    case Store(r) =>
      var live := s.requests[r];
      Judged(Logged(s.(blockedUntil := live.phase.at + MINUTE), Stored(live.phase.at)), r, live, live.attempt.value)
    case GetWorker(r, ok) =>
      var live := s.requests[r];
      if ok then Moved(Logged(s, Generated(live.tool, live.attempt, false)), r, live.(phase := OnAppServer))
      else Left(s, r)
    case Finish(r) => Left(s, r)
    case Tick(elapsed) => s.(clock := s.clock + elapsed)
  }

  predicate Runs(s: System, events: seq<Event>)
    decreases |events|
  {
    events == [] || (Enabled(s, events[0]) && Runs(Step(s, events[0]), events[1..]))
  }

  function After(s: System, events: seq<Event>): System
    requires Runs(s, events)
    decreases |events|
  {
    if events == [] then s else After(Step(s, events[0]), events[1..])
  }

  /** A request goes direct exactly when the route is on and, for text, its reading is past the deadline. */
  lemma DecideExactly(s: System, r: nat)
    requires Enabled(s, Decide(r))
    ensures var live, t := s.requests[r], Step(s, Decide(r));
            var direct := !s.disableDirect && (live.tool || live.phase.at >= s.blockedUntil);
            && t.blockedUntil == s.blockedUntil
            && (direct ==> t.log == s.log + [Sent(live.phase.at, live.tool)] && InPhase(t, r, Sending))
            && (!direct ==> t.log == s.log)
            && (!direct && live.tool ==> r !in t.requests)
            && (!direct && !live.tool ==> InPhase(t, r, NeedsWorker))
  {
  }

  /** What each answer to a direct attempt leads to. */
  lemma AnswerExactly(s: System, r: nat, a: Attempt)
    requires Enabled(s, Answer(r, a)) && s.held > 0
    ensures var tool, t := s.requests[r].tool, Step(s, Answer(r, a));
            && t.blockedUntil == s.blockedUntil
            && match a
               case NoCredentials => InPhase(t, r, Storing(s.clock)) && t.log == s.log
               case Unsendable => r !in t.requests && t.held == s.held - 1 && t.log == s.log
               case TransportError => r !in t.requests && t.held == s.held - 1 && t.log == s.log
               case Status(code) =>
                 if code / 100 == 2 then InPhase(t, r, OnDirect) && t.log == s.log + [Generated(tool, Some(a), true)]
                 else if code in {400, 401, 403, 404, 502, 503, 504} && !tool then
                   InPhase(t, r, Storing(s.clock)) && t.log == s.log
                 else r !in t.requests && t.held == s.held - 1 && t.log == s.log
  {
  }

  // ------------------------------------------------ the invariant

  predicate HasSlot(live: Live) {
    !live.phase.Waiting?
  }

  /** The slots taken are those of the requests past the gate. */
  ghost predicate SlotsExact(s: System) {
    s.held == |Where(s.requests, HasSlot)| && s.held <= s.cap
  }

  /** What is known of a request in its phase. */
  predicate LiveOk(live: Live) {
    match live.phase
    case NeedsWorker => !live.tool && (live.attempt.Some? ==> Declined(live.attempt.value))
    case Storing(_) => true
    case OnDirect => true
    case OnAppServer => true
    case _ => live.attempt.None?
  }

  ghost predicate AllLiveOk(s: System) {
    forall r :: r in s.requests ==> LiveOk(s.requests[r])
  }

  /** The App Server generates only for text requests, and only if the direct route was not tried or refused. */
  predicate NotTwice(entry: Entry) {
    && (entry.Generated? && !entry.direct ==> !entry.tool && (entry.attempt.Some? ==> Declined(entry.attempt.value)))
    && (entry.Generated? && entry.direct ==> entry.attempt.Some? && Accepted(entry.attempt.value))
  }

  /** The deadline stored last. */
  function Deadline(log: seq<Entry>): int {
    if log == [] then 0
    else if log[|log| - 1].Stored? then log[|log| - 1].at + MINUTE
    else Deadline(log[..|log| - 1])
  }

  /** No text request went direct before the deadline stored last. */
  ghost predicate SentAfterDeadline(log: seq<Entry>) {
    forall j :: 0 <= j < |log| && log[j].Sent? && !log[j].tool ==> log[j].at >= Deadline(log[..j])
  }

  ghost predicate LogOk(log: seq<Entry>, blockedUntil: int) {
    && (forall i :: 0 <= i < |log| ==> NotTwice(log[i]))
    && blockedUntil == Deadline(log)
    && SentAfterDeadline(log)
  }

  ghost predicate Inv(s: System) {
    SlotsExact(s) && AllLiveOk(s) && LogOk(s.log, s.blockedUntil)
  }

  lemma SlotMoves(s: System, r: nat, live: Live)
    ensures |Where(Moved(s, r, live).requests, HasSlot)|
         == |Where(s.requests, HasSlot)| - One(r in s.requests && HasSlot(s.requests[r])) + One(HasSlot(live))
  {
    hide Where;
    Moves(s.requests, r, live, HasSlot);
  }

  lemma SlotLeaves(s: System, r: nat)
    requires r in s.requests
    ensures |Where(s.requests - {r}, HasSlot)| == |Where(s.requests, HasSlot)| - One(HasSlot(s.requests[r]))
  {
    hide Where;
    Leaves(s.requests, r, HasSlot);
  }

  lemma SlotsStep(s: System, e: Event)
    requires SlotsExact(s) && Enabled(s, e)
    ensures SlotsExact(Step(s, e))
  {
    hide Where, TriesDirect, Accepted, Declined, Blocks;
    if !e.Tick? {
      if e.r in s.requests {
        SlotLeaves(s, e.r);
      }
      if e.r in Step(s, e).requests {
        SlotMoves(s, e.r, Step(s, e).requests[e.r]);
      }
    }
  }

  lemma LiveStep(s: System, e: Event)
    requires AllLiveOk(s) && Enabled(s, e)
    ensures AllLiveOk(Step(s, e))
  {
    hide TriesDirect, Accepted, Blocks, DelegatedStatus;
    if !e.Tick? {
      assert e.r in s.requests ==> LiveOk(s.requests[e.r]);
    }
  }

  lemma LogMore(log: seq<Entry>, before: int, entry: Entry, after: int)
    requires LogOk(log, before) && NotTwice(entry)
    requires after == if entry.Stored? then entry.at + MINUTE else before
    requires entry.Sent? && !entry.tool ==> entry.at >= before
    ensures LogOk(log + [entry], after)
  {
    hide NotTwice;
    var all := log + [entry];
    assert all[..|log|] == log;
    forall j | 0 <= j < |all| && all[j].Sent? && !all[j].tool
      ensures all[j].at >= Deadline(all[..j])
    {
      assert all[..j] == if j < |log| then log[..j] else log;
    }
  }

  lemma LogStep(s: System, e: Event)
    requires AllLiveOk(s) && LogOk(s.log, s.blockedUntil) && Enabled(s, e)
    ensures LogOk(Step(s, e).log, Step(s, e).blockedUntil)
  {
    hide Accepted, Blocks, DelegatedStatus, LogOk;
    match e
    case Decide(r) =>
      if TriesDirect(s.disableDirect, s.blockedUntil, s.requests[r].tool, s.requests[r].phase.at) {
        LogMore(s.log, s.blockedUntil, Sent(s.requests[r].phase.at, s.requests[r].tool), s.blockedUntil);
      }
    case Answer(r, a) =>
      if Accepted(a) {
        LogMore(s.log, s.blockedUntil, Generated(s.requests[r].tool, Some(a), true), s.blockedUntil);
      }
    case Store(r) =>
      var at, log := s.requests[r].phase.at, s.log + [Stored(s.requests[r].phase.at)];
      LogMore(s.log, s.blockedUntil, Stored(at), at + MINUTE);
      if Accepted(s.requests[r].attempt.value) {
        LogMore(log, at + MINUTE, Generated(s.requests[r].tool, s.requests[r].attempt, true), at + MINUTE);
      }
    case GetWorker(r, ok) =>
      assert LiveOk(s.requests[r]);
      LogMore(s.log, s.blockedUntil, Generated(s.requests[r].tool, s.requests[r].attempt, false), s.blockedUntil);
    case _ =>
  }

  /** Every step of every interleaving keeps the slots exact and the log in order. */
  lemma InvStep(s: System, e: Event)
    requires Inv(s) && Enabled(s, e)
    ensures Inv(Step(s, e))
  {
    hide SlotsExact, AllLiveOk, LogOk, Step, Enabled;
    SlotsStep(s, e);
    LiveStep(s, e);
    LogStep(s, e);
  }

  lemma {:induction false} InvAlways(s: System, events: seq<Event>)
    requires Inv(s) && Runs(s, events)
    ensures Inv(After(s, events))
    decreases |events|
  {
    hide Inv, Step, Enabled;
    if events != [] {
      InvStep(s, events[0]);
      InvAlways(Step(s, events[0]), events[1..]);
    }
  }

  function Init(cap: nat, disableDirect: bool): System {
    System(cap, disableDirect, 0, 0, 0, map[], [])
  }

  /**
    In every run: the App Server never generates for a function-call request, nor after a direct attempt other than one
    without credentials or with one of seven statuses; the direct route generates for a success status only; no text
    request goes direct before the deadline stored last; and the slots taken are those of the requests past the gate.
  */
  lemma RouteAlways(cap: nat, disableDirect: bool, events: seq<Event>)
    requires Runs(Init(cap, disableDirect), events)
    ensures var s := After(Init(cap, disableDirect), events);
            && (forall i :: 0 <= i < |s.log| && s.log[i].Generated? ==>
                  var a := s.log[i].attempt;
                  if s.log[i].direct then a.Some? && a.value.Status? && a.value.code / 100 == 2
                  else
                    && !s.log[i].tool
                    && (a.Some? ==>
                          || a.value.NoCredentials?
                          || (a.value.Status? && a.value.code in {400, 401, 403, 404, 502, 503, 504})))
            && SentAfterDeadline(s.log)
            && s.held == |Where(s.requests, HasSlot)|
  {
    hide SentAfterDeadline, Where;
    var s := Init(cap, disableDirect);
    InitOk(cap, disableDirect);
    InvAlways(s, events);
    assert forall i :: 0 <= i < |After(s, events).log| ==> NotTwice(After(s, events).log[i]);
  }

  lemma InitOk(cap: nat, disableDirect: bool)
    ensures Inv(Init(cap, disableDirect))
  {
    assert Where(map[], HasSlot) == {};
  }

  // ------------------------------------------------ when a block is cut short

  /** A text request went direct before the minute after a stored reading was over. */
  predicate CutShort(log: seq<Entry>, i: int, j: int) {
    && 0 <= i < j < |log|
    && log[i].Stored? && log[j].Sent? && !log[j].tool && log[j].at < log[i].at + MINUTE
  }

  /** The furthest deadline among those stored. */
  function Furthest(log: seq<Entry>): int {
    if log == [] then 0
    else
      var before, last := Furthest(log[..|log| - 1]), log[|log| - 1];
      if last.Stored? && last.at + MINUTE > before then last.at + MINUTE else before
  }

  /** It is the deadline of a store, if there is one, and no stored deadline lies beyond it. */
  lemma {:induction false} FurthestStore(log: seq<Entry>) returns (k: int)
    ensures forall i :: 0 <= i < |log| && log[i].Stored? ==> log[i].at + MINUTE <= Furthest(log)
    ensures Furthest(log) > 0 ==> 0 <= k < |log| && log[k].Stored? && log[k].at + MINUTE == Furthest(log)
  {
    if log == [] {
      k := -1;
    } else {
      var last := |log| - 1;
      k := FurthestStore(log[..last]);
      assert forall i :: 0 <= i < last ==> log[..last][i] == log[i];
      if log[last].Stored? && log[last].at + MINUTE > Furthest(log[..last]) {
        k := last;
      }
    }
  }

  /**
    In every run, a text request cuts a block short exactly when it comes after the deadline stored last, as every
    text request does, and before the furthest one: the stores overtook each other.
  */
  lemma BlockCutShortExactly(cap: nat, disableDirect: bool, events: seq<Event>, j: int)
    requires Runs(Init(cap, disableDirect), events)
    ensures var log := After(Init(cap, disableDirect), events).log;
            (exists i :: CutShort(log, i, j)) <==>
              && 0 <= j < |log| && log[j].Sent? && !log[j].tool
              && Deadline(log[..j]) <= log[j].at < Furthest(log[..j])
  {
    RouteAlways(cap, disableDirect, events);
    TimelyAlways(Init(cap, disableDirect), events);
    var log := After(Init(cap, disableDirect), events).log;
    if 0 <= j < |log| {
      var k := FurthestStore(log[..j]);
      if i :| CutShort(log, i, j) {
        assert log[..j][i] == log[i];
      }
      if log[j].Sent? && !log[j].tool && log[j].at < Furthest(log[..j]) {
        assert log[..j][k] == log[k];
        assert CutShort(log, k, j);
      }
    }
  }

  ghost predicate StoresAscend(log: seq<Entry>) {
    forall a, b :: 0 <= a < b < |log| && log[a].Stored? && log[b].Stored? ==> log[a].at <= log[b].at
  }

  /** The store that gives a log its deadline. */
  lemma {:induction false} LastStore(log: seq<Entry>, i: int) returns (k: int)
    requires 0 <= i < |log| && log[i].Stored?
    ensures i <= k < |log| && log[k].Stored? && Deadline(log) == log[k].at + MINUTE
  {
    var last := |log| - 1;
    if log[last].Stored? {
      k := last;
    } else {
      k := LastStore(log[..last], i);
    }
  }

  /** Stores in the order of their readings keep every block for its minute. */
  lemma OrderedStoresKeepBlocks(log: seq<Entry>, i: int, j: int)
    requires SentAfterDeadline(log) && StoresAscend(log)
    ensures !CutShort(log, i, j)
  {
    if 0 <= i < j < |log| && log[i].Stored? {
      var k := LastStore(log[..j], i);
      assert log[..j][k] == log[k];
    }
  }

  // ------------------------------------------------ which adapters can cut a block short

  /** A reading of the clock that was taken before `now`. */
  predicate Past(at: int, now: int) {
    0 <= at <= now
  }

  predicate LiveTimely(live: Live, now: int) {
    && (live.phase.Clocked? ==> Past(live.phase.at, now))
    && (live.phase.Storing? ==> Past(live.phase.at, now))
  }

  predicate EntryTimely(entry: Entry, now: int) {
    !entry.Generated? ==> Past(entry.at, now)
  }

  /** The readings that requests hold and that were recorded lie in the past. */
  ghost predicate Timely(s: System) {
    && 0 <= s.clock
    && (forall r :: r in s.requests ==> LiveTimely(s.requests[r], s.clock))
    && (forall i :: 0 <= i < |s.log| ==> EntryTimely(s.log[i], s.clock))
  }

  /** How a step other than a store or a tick changes requests and log. */
  ghost predicate QuietLog(s: System, t: System) {
    && t.clock == s.clock && s.log <= t.log && |t.log| <= |s.log| + 1
    && forall i :: |s.log| <= i < |t.log| ==> !t.log[i].Stored?
  }

  lemma StepsQuietly(s: System, e: Event)
    requires Enabled(s, e) && !e.Store? && !e.Tick?
    ensures QuietLog(s, Step(s, e))
  {
    hide Accepted, Blocks, TriesDirect, DelegatedStatus;
  }

  lemma TimelyRequests(s: System, e: Event)
    requires Timely(s) && Enabled(s, e)
    ensures forall r :: r in Step(s, e).requests ==> LiveTimely(Step(s, e).requests[r], Step(s, e).clock)
  {
    hide Accepted, Blocks, TriesDirect, DelegatedStatus, EntryTimely;
    if !e.Tick? {
      assert e.r in s.requests ==> LiveTimely(s.requests[e.r], s.clock);
    }
  }

  lemma TimelyLog(s: System, e: Event)
    requires Timely(s) && Enabled(s, e)
    ensures forall i :: 0 <= i < |Step(s, e).log| ==> EntryTimely(Step(s, e).log[i], Step(s, e).clock)
  {
    hide Accepted, Blocks, TriesDirect, DelegatedStatus;
    if !e.Tick? {
      assert e.r in s.requests ==> LiveTimely(s.requests[e.r], s.clock);
    }
    hide LiveTimely;
  }

  lemma TimelyStep(s: System, e: Event)
    requires Timely(s) && Enabled(s, e)
    ensures Timely(Step(s, e))
  {
    TimelyRequests(s, e);
    TimelyLog(s, e);
    hide LiveTimely, EntryTimely, Accepted, Blocks, TriesDirect, DelegatedStatus;
  }

  lemma {:induction false} TimelyAlways(s: System, events: seq<Event>)
    requires Timely(s) && Runs(s, events)
    ensures Timely(After(s, events))
    decreases |events|
  {
    hide Timely, Step, Enabled;
    if events != [] {
      TimelyStep(s, events[0]);
      TimelyAlways(Step(s, events[0]), events[1..]);
    }
  }

  /** No stored reading is newer than one that waits to be stored. */
  ghost predicate WaitsInOrder(s: System) {
    forall r, i :: r in s.requests && s.requests[r].phase.Storing? && 0 <= i < |s.log| && s.log[i].Stored? ==>
      s.log[i].at <= s.requests[r].phase.at
  }

  /** With one slot at most one request is past the gate, so readings are stored as they were taken. */
  ghost predicate OneByOne(s: System) {
    s.cap <= 1 && SlotsExact(s) && Timely(s) && StoresAscend(s.log) && WaitsInOrder(s)
  }

  lemma OnlyOne(s: System, r: nat, q: nat)
    requires SlotsExact(s) && s.cap <= 1
    requires r in s.requests && HasSlot(s.requests[r]) && q in s.requests && HasSlot(s.requests[q])
    ensures r == q
  {
    Subset({r, q}, Where(s.requests, HasSlot));
    assert r != q ==> |{r, q}| == 2;
  }

  lemma OrderKept(s: System, e: Event)
    requires Timely(s) && StoresAscend(s.log) && WaitsInOrder(s) && Enabled(s, e) && !e.Store?
    ensures StoresAscend(Step(s, e).log) && WaitsInOrder(Step(s, e))
  {
    hide Accepted, Blocks, TriesDirect, DelegatedStatus;
    if !e.Tick? {
      var t := Step(s, e);
      StepsQuietly(s, e);
      forall r, i | r in t.requests && t.requests[r].phase.Storing? && 0 <= i < |t.log| && t.log[i].Stored?
        ensures t.log[i].at <= t.requests[r].phase.at
      {
        assert i < |s.log| && t.log[i] == s.log[i] && EntryTimely(s.log[i], s.clock);
      }
      hide Step;
    }
  }

  lemma OrderAfterStore(s: System, e: Event)
    requires OneByOne(s) && Enabled(s, e) && e.Store?
    ensures StoresAscend(Step(s, e).log) && WaitsInOrder(Step(s, e))
  {
    hide Timely, SlotsExact, Accepted, Blocks, DelegatedStatus;
    forall q | q in s.requests && s.requests[q].phase.Storing?
      ensures q == e.r
    {
      OnlyOne(s, e.r, q);
    }
  }

  lemma OneByOneStep(s: System, e: Event)
    requires OneByOne(s) && Enabled(s, e)
    ensures OneByOne(Step(s, e))
  {
    hide SlotsExact, Timely, StoresAscend, WaitsInOrder, Accepted, Blocks, TriesDirect, DelegatedStatus;
    SlotsStep(s, e);
    TimelyStep(s, e);
    if e.Store? {
      OrderAfterStore(s, e);
    } else {
      OrderKept(s, e);
    }
  }

  lemma {:induction false} OneByOneAlways(s: System, events: seq<Event>)
    requires OneByOne(s) && Runs(s, events)
    ensures OneByOne(After(s, events))
    decreases |events|
  {
    hide OneByOne, Step, Enabled;
    if events != [] {
      OneByOneStep(s, events[0]);
      OneByOneAlways(Step(s, events[0]), events[1..]);
    }
  }

  ghost predicate NothingSent(s: System) {
    s.disableDirect && forall i :: 0 <= i < |s.log| ==> !s.log[i].Sent?
  }

  lemma {:induction false} NothingSentAlways(s: System, events: seq<Event>)
    requires NothingSent(s) && Runs(s, events)
    ensures NothingSent(After(s, events))
    decreases |events|
  {
    hide Accepted, Blocks, DelegatedStatus;
    if events != [] {
      NothingSentAlways(Step(s, events[0]), events[1..]);
    }
  }

  ghost predicate CutsShort(cap: nat, disableDirect: bool, events: seq<Event>, i: int, j: int) {
    Runs(Init(cap, disableDirect), events) && CutShort(After(Init(cap, disableDirect), events).log, i, j)
  }

  /** A run that cuts a block short exists exactly for an adapter with a direct route and more than one slot. */
  lemma CanBeCutShortExactly(cap: nat, disableDirect: bool)
    ensures (exists events, i, j :: CutsShort(cap, disableDirect, events, i, j)) <==> cap >= 2 && !disableDirect
  {
    if cap >= 2 && !disableDirect {
      ExtensionCanBeLost(cap);
      assert CutsShort(cap, disableDirect, RACE, 2, 4);
    } else if events, i, j :| CutsShort(cap, disableDirect, events, i, j) {
      NeverCutShort(cap, disableDirect, events, i, j);
    }
  }

  lemma NeverCutShort(cap: nat, disableDirect: bool, events: seq<Event>, i: int, j: int)
    requires (cap <= 1 || disableDirect) && Runs(Init(cap, disableDirect), events)
    ensures !CutShort(After(Init(cap, disableDirect), events).log, i, j)
  {
    var s := Init(cap, disableDirect);
    if disableDirect {
      NothingSentAlways(s, events);
    } else {
      InitOk(cap, disableDirect);
      OneByOneAlways(s, events);
      RouteAlways(cap, disableDirect, events);
      OrderedStoresKeepBlocks(After(s, events).log, i, j);
    }
  }

  lemma FirstStep(s: System, e: Event, rest: seq<Event>)
    requires Enabled(s, e) && Runs(Step(s, e), rest)
    ensures Runs(s, [e] + rest) && After(s, [e] + rest) == After(Step(s, e), rest)
  {
    hide Step, Enabled;
    assert ([e] + rest)[1..] == rest;
  }

  lemma ThreeSteps(s: System, a: Event, b: Event, c: Event, rest: seq<Event>)
    requires Enabled(s, a) && Enabled(Step(s, a), b) && Enabled(Step(Step(s, a), b), c)
    requires Runs(Step(Step(Step(s, a), b), c), rest)
    ensures Runs(s, [a, b, c] + rest)
    ensures After(s, [a, b, c] + rest) == After(Step(Step(Step(s, a), b), c), rest)
  {
    hide Step, Enabled;
    FirstStep(Step(Step(s, a), b), c, rest);
    FirstStep(Step(s, a), b, [c] + rest);
    FirstStep(s, a, [b] + ([c] + rest));
    assert [a, b, c] + rest == [a] + ([b] + ([c] + rest));
  }

  lemma FourSteps(s: System, a: Event, b: Event, c: Event, d: Event, rest: seq<Event>)
    requires Enabled(s, a) && Enabled(Step(s, a), b) && Enabled(Step(Step(s, a), b), c)
    requires Enabled(Step(Step(Step(s, a), b), c), d) && Runs(Step(Step(Step(Step(s, a), b), c), d), rest)
    ensures Runs(s, [a, b, c, d] + rest)
    ensures After(s, [a, b, c, d] + rest) == After(Step(Step(Step(Step(s, a), b), c), d), rest)
  {
    hide Step, Enabled;
    FirstStep(Step(Step(Step(s, a), b), c), d, rest);
    FirstStep(Step(Step(s, a), b), c, [d] + rest);
    FirstStep(Step(s, a), b, [c] + ([d] + rest));
    FirstStep(s, a, [b] + ([c] + ([d] + rest)));
    assert [a, b, c, d] + rest == [a] + ([b] + ([c] + ([d] + rest)));
  }

  /** A text request up to its direct attempt. */
  function Opening(r: nat): seq<Event> {
    [Arrive(r, false), Enter(r), ReadClock(r), Decide(r)]
  }

  function Asking(s: System, r: nat): System {
    Moved(Logged(s.(held := s.held + 1), Sent(s.clock, false)), r, Live(false, Sending, None))
  }

  lemma OpeningRuns(s: System, r: nat, rest: seq<Event>)
    requires r !in s.requests && s.held < s.cap && !s.disableDirect && s.clock >= s.blockedUntil
    requires Runs(Asking(s, r), rest)
    ensures Runs(s, Opening(r) + rest) && After(s, Opening(r) + rest) == After(Asking(s, r), rest)
  {
    var s1 := Step(s, Arrive(r, false));
    var s2 := Step(s1, Enter(r));
    var s3 := Step(s2, ReadClock(r));
    assert Step(s3, Decide(r)).requests == Asking(s, r).requests;
    assert Step(s3, Decide(r)) == Asking(s, r);
    hide Step;
    FourSteps(s, Arrive(r, false), Enter(r), ReadClock(r), Decide(r), rest);
  }

  /** Two refusals of which the later one is stored first. */
  const CROSSED: seq<Event> := [Answer(0, NoCredentials), Tick(10), Answer(1, NoCredentials), Store(1)]

  /** The earlier one follows, finds no worker and leaves; almost a minute passes. */
  const GIVEN_UP: seq<Event> := [Store(0), GetWorker(0, false), Tick(MINUTE - 5)]

  const RACE: seq<Event> :=
    Opening(0) + (Opening(1) + (CROSSED + (GIVEN_UP + (Opening(2) + []))))

  const REFUSED: Live := Live(false, NeedsWorker, Some(NoCredentials))

  /** Both have been refused, and the older reading was stored last. */
  function CrossedOver(cap: nat): System {
    System(cap, false, MINUTE + 5, MINUTE, 1, map[1 := REFUSED],
           [Sent(0, false), Sent(0, false), Stored(10), Stored(0)])
  }

  /** The state when both deadlines are about to be stored, the later one first. */
  function Crossing(cap: nat): System {
    System(cap, false, 10, 10 + MINUTE, 2,
           map[0 := Live(false, Storing(0), Some(NoCredentials)), 1 := REFUSED],
           [Sent(0, false), Sent(0, false), Stored(10)])
  }

  lemma GivenUpRuns(cap: nat, rest: seq<Event>)
    requires cap >= 2 && Runs(CrossedOver(cap), rest)
    ensures Runs(Crossing(cap), GIVEN_UP + rest)
    ensures After(Crossing(cap), GIVEN_UP + rest) == After(CrossedOver(cap), rest)
  {
    var s0 := Crossing(cap);
    var s1 := Step(s0, Store(0));
    var s2 := Step(s1, GetWorker(0, false));
    var s3 := Step(s2, Tick(MINUTE - 5));
    assert s3.requests == CrossedOver(cap).requests;
    assert s3 == CrossedOver(cap);
    hide Step;
    ThreeSteps(s0, Store(0), GetWorker(0, false), Tick(MINUTE - 5), rest);
  }

  lemma CrossedRuns(cap: nat, rest: seq<Event>)
    requires cap >= 2 && Runs(Crossing(cap), rest)
    ensures var s := Asking(Asking(Init(cap, false), 0), 1);
            Runs(s, CROSSED + rest) && After(s, CROSSED + rest) == After(Crossing(cap), rest)
  {
    var s := Asking(Asking(Init(cap, false), 0), 1);
    var s1 := Step(s, Answer(0, NoCredentials));
    var s2 := Step(s1, Tick(10));
    var s3 := Step(s2, Answer(1, NoCredentials));
    var s4 := Step(s3, Store(1));
    assert s4.requests == Crossing(cap).requests;
    assert s4 == Crossing(cap);
    hide Step;
    FourSteps(s, Answer(0, NoCredentials), Tick(10), Answer(1, NoCredentials), Store(1), rest);
  }

  /** Three text requests: the third one goes direct before the minute after the second refusal is over. */
  lemma ExtensionCanBeLost(cap: nat)
    requires cap >= 2
    ensures Runs(Init(cap, false), RACE)
    ensures CutShort(After(Init(cap, false), RACE).log, 2, 4)
  {
    hide Runs, After;
    var last := Asking(CrossedOver(cap), 2);
    NothingMore(last);
    OpeningRuns(CrossedOver(cap), 2, []);
    GivenUpRuns(cap, Opening(2) + []);
    CrossedRuns(cap, GIVEN_UP + (Opening(2) + []));
    OpeningRuns(Asking(Init(cap, false), 0), 1, CROSSED + (GIVEN_UP + (Opening(2) + [])));
    OpeningRuns(Init(cap, false), 0, Opening(1) + (CROSSED + (GIVEN_UP + (Opening(2) + []))));
    assert last.log == [Sent(0, false), Sent(0, false), Stored(10), Stored(0), Sent(MINUTE + 5, false)];
  }

  lemma NothingMore(s: System)
    ensures Runs(s, []) && After(s, []) == s
  {
  }
}
