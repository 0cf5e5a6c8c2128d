/** How far confirmed spending can pass a client's daily limit, and when a reservation is refused for it. */
module Quota {
  import opened Names
  import opened Wrappers
  import opened RunStore
  import Decimal

  // ------------------------------------------------ sums over runs

  ghost function Sum(ids: seq<Name>, f: Name -> int): int {
    if ids == [] then 0 else Sum(ids[..|ids| - 1], f) + f(ids[|ids| - 1])
  }

  lemma {:induction false} SumAtMost(ids: seq<Name>, f: Name -> int, g: Name -> int)
    requires forall id :: id in ids ==> f(id) <= g(id)
    ensures Sum(ids, f) <= Sum(ids, g)
  {
    if ids != [] {
      SumAtMost(ids[..|ids| - 1], f, g);
    }
  }

  lemma {:induction false} SumWeighted(ids: seq<Name>, f: Name -> int, g: Name -> int, h: Name -> int, weight: int)
    requires forall id :: id in ids ==> h(id) == f(id) + weight * g(id)
    ensures Sum(ids, h) == Sum(ids, f) + weight * Sum(ids, g)
  {
    if ids != [] {
      SumWeighted(ids[..|ids| - 1], f, g, h, weight);
    }
  }

  lemma SumAppend(ids: seq<Name>, id: Name, f: Name -> int)
    ensures Sum(ids + [id], f) == Sum(ids, f) + f(id)
  {
    assert (ids + [id])[..|ids|] == ids;
  }

  // ------------------------------------------------ what is spent and what may still be

  /** Charges are the printed form of a settlement, so they read back as non-negative amounts. */
  ghost predicate ReadableCharges(t: Tables) {
    forall id :: id in t.charges ==> Decimal.ReadsBack(t.charges[id].totalCharge)
  }

  ghost function SpentBy(t: Tables, client: Name, since: int, id: Name): int {
    if Counts(t, id, client, since) then Decimal.Worth(t.charges[id].totalCharge) else 0
  }

  predicate IsUnderway(t: Tables, client: Name, id: Name) {
    id in t.runs && IsOpen(t.runs[id]) && t.runs[id].clientId == client
  }

  ghost function ExposureOf(t: Tables, client: Name, since: int, most: nat, id: Name): int {
    SpentBy(t, client, since, id) + if IsUnderway(t, client, id) then most else 0
  }

  ghost function Spent(t: Tables, client: Name, since: int): Name -> int {
    id => SpentBy(t, client, since, id)
  }

  ghost function Underway(t: Tables, client: Name): Name -> int {
    id => if IsUnderway(t, client, id) then 1 else 0
  }

  /** Confirmed spending of the window. */
  ghost function WindowTotal(t: Tables, client: Name, since: int): int {
    Sum(t.order, Spent(t, client, since))
  }

  ghost function InFlight(t: Tables, client: Name): int {
    Sum(t.order, Underway(t, client))
  }

  /** Confirmed spending plus the most the open runs can still add, each at most `most`. */
  ghost function Exposure(t: Tables, client: Name, since: int, most: nat): Name -> int {
    id => ExposureOf(t, client, since, most, id)
  }

  lemma ExposureSplit(t: Tables, client: Name, since: int, most: nat)
    ensures Sum(t.order, Exposure(t, client, since, most)) == WindowTotal(t, client, since) + most * InFlight(t, client)
  {
    SumWeighted(t.order, Spent(t, client, since), Underway(t, client), Exposure(t, client, since, most), most);
  }

  /** The total read row by row from the text is the exact sum, and fails only when that sum does not fit. */
  lemma {:induction false} UsedIsTotal(t: Tables, ids: seq<Name>, client: Name, since: int)
    requires ReadableCharges(t)
    ensures 0 <= Sum(ids, Spent(t, client, since))
    ensures UsedAmong(t, ids, client, since).Ok? <==> Sum(ids, Spent(t, client, since)) <= Decimal.MAX_INT64
    ensures UsedAmong(t, ids, client, since).Ok? ==>
              UsedAmong(t, ids, client, since).value == Sum(ids, Spent(t, client, since))
  {
    hide Decimal.ParseDecimal, Decimal.Add;
    if ids != [] {
      var init, last := ids[..|ids| - 1], ids[|ids| - 1];
      UsedIsTotal(t, init, client, since);
      if Counts(t, last, client, since) {
        var charge := t.charges[last].totalCharge;
        Decimal.ReadsBackFits(charge);
        if UsedAmong(t, init, client, since).Ok? {
          Decimal.AddExact(UsedAmong(t, init, client, since).value, Decimal.Worth(charge));
        }
      }
    }
  }

  // ------------------------------------------------ the bound

  /** The circumstances of the bound: a fixed positive limit, and how much each run may cost. */
  datatype Policy = Policy(client: Name, limitText: string, limit: nat, mostRuns: nat, mostCharge: nat)

  predicate Sound(p: Policy) {
    p.limitText != "" && p.limit > 0 && Decimal.ParseDecimal(p.limitText) == Ok(p.limit)
  }

  /** The window a reservation of the client looks at. */
  function WindowAfter(p: Policy, t: Tables, since: int, op: Op): int {
    match op
    case DoReserve(r, now, midnight, commit) =>
      if r.clientId == p.client then
        WindowStart(t, p.client, if r.dayStart.Some? then r.dayStart.value else midnight)
      else since
    case _ => since
  }

  /**
    Operations the bound covers: reservations of the client carry its limit and look at a window that does not
    move back; completions carry readable charges, at most `mostCharge` for the client's runs; and the client
    never has more than `mostRuns` runs under way.
  */
  ghost predicate Covered(p: Policy, t: Tables, since: int, op: Op) {
    && InFlight(Apply(t, op), p.client) <= p.mostRuns
    && WindowAfter(p, t, since, op) >= since
    && match op
       case DoReserve(r, _, _, _) => r.clientId == p.client ==> r.dailyLimit == p.limitText
       case DoComplete(c, _, _) =>
         && Decimal.ReadsBack(c.totalCharge)
         && (c.runId in t.runs && t.runs[c.runId].clientId == p.client && IsUsd(c.currency) ==>
               Decimal.Worth(c.totalCharge) <= p.mostCharge)
       case _ => true
  }

  ghost predicate Bounded(p: Policy, t: Tables, since: int) {
    && Inv(t) && ReadableCharges(t)
    && Sum(t.order, Exposure(t, p.client, since, p.mostCharge)) <= p.limit - 1 + p.mostRuns * p.mostCharge
  }

  lemma LaterWindow(p: Policy, t: Tables, since: int, later: int)
    requires ReadableCharges(t) && since <= later
    ensures Sum(t.order, Exposure(t, p.client, later, p.mostCharge))
         <= Sum(t.order, Exposure(t, p.client, since, p.mostCharge))
    ensures WindowTotal(t, p.client, later) <= WindowTotal(t, p.client, since)
  {
    SumAtMost(t.order, Exposure(t, p.client, later, p.mostCharge), Exposure(t, p.client, since, p.mostCharge));
    SumAtMost(t.order, Spent(t, p.client, later), Spent(t, p.client, since));
  }

  /** An admitted reservation starts a new count: at most limit - 1 is spent, and every open run is counted. */
  lemma BoundedReserve(p: Policy, t: Tables, since: int, r: Reservation, now: int, midnight: int, commit: Commit)
    requires Sound(p) && Bounded(p, t, since) && Covered(p, t, since, DoReserve(r, now, midnight, commit))
    requires r.clientId == p.client && AfterReserve(t, r, now, midnight, commit).0 != t
    ensures var t' := AfterReserve(t, r, now, midnight, commit).0;
            var w := WindowAfter(p, t, since, DoReserve(r, now, midnight, commit));
            Sum(t'.order, Exposure(t', p.client, w, p.mostCharge)) <= p.limit - 1 + p.mostRuns * p.mostCharge
  {
    hide Decimal.ParseDecimal, UsedAmong, Counts, Sum;
    var t' := AfterReserve(t, r, now, midnight, commit).0;
    var w := WindowAfter(p, t, since, DoReserve(r, now, midnight, commit));
    assert QuotaVerdict(t, r, midnight) == Ok(true);
    assert UsedAmong(t, t.order, p.client, w).value < p.limit;
    UsedIsTotal(t, t.order, p.client, w);
    SpentInserted(t, r, now, p.client, w);
    ExposureSplit(t', p.client, w, p.mostCharge);
    Product(p.mostCharge, InFlight(t', p.client), p.mostRuns);
  }

  lemma Product(a: nat, b: int, c: int)
    requires b <= c
    ensures a * b <= a * c
  {
  }

  lemma SpentInserted(t: Tables, r: Reservation, now: int, client: Name, since: int)
    requires Inv(t) && FreshFor(t, r)
    ensures WindowTotal(Inserted(t, r, now), client, since) == WindowTotal(t, client, since)
  {
    var t' := Inserted(t, r, now);
    hide Decimal.Worth, IsUsd, Sum;
    forall id | id in t.order
      ensures Spent(t', client, since)(id) == Spent(t, client, since)(id)
    {
      assert id != r.runId;
    }
    assert SpentBy(t', client, since, r.runId) == 0;
    hide Inv, SpentBy;
    SumAppend(t.order, r.runId, Spent(t', client, since));
    SumAtMost(t.order, Spent(t, client, since), Spent(t', client, since));
    SumAtMost(t.order, Spent(t', client, since), Spent(t, client, since));
  }

  /** A reservation of another client adds nothing. */
  lemma ExposureOther(p: Policy, t: Tables, since: int, r: Reservation, now: int)
    requires Inv(t) && FreshFor(t, r) && r.clientId != p.client
    ensures var t' := Inserted(t, r, now);
            Sum(t'.order, Exposure(t', p.client, since, p.mostCharge))
            <= Sum(t.order, Exposure(t, p.client, since, p.mostCharge))
  {
    var t' := Inserted(t, r, now);
    var e, e' := Exposure(t, p.client, since, p.mostCharge), Exposure(t', p.client, since, p.mostCharge);
    hide Decimal.Worth, IsUsd, Sum;
    SumAppend(t.order, r.runId, e');
    forall id | id in t.order
      ensures e'(id) == e(id)
    {
      assert id != r.runId;
    }
    SumAtMost(t.order, e', e);
  }

  /** Settling a run trades its allowance for its charge. */
  lemma ExposureSettled(p: Policy, t: Tables, since: int, c: Completion, now: int, id: Name)
    requires Inv(t) && Completable(t, c) && id in t.runs
    requires t.runs[c.runId].clientId == p.client && IsUsd(c.currency) ==> Decimal.Worth(c.totalCharge) <= p.mostCharge
    ensures ExposureOf(Settled(t, c, now), p.client, since, p.mostCharge, id)
         <= ExposureOf(t, p.client, since, p.mostCharge, id)
  {
    hide Decimal.Worth;
  }

  /** Moving a run among the states without a charge cannot raise its exposure. */
  lemma ExposureRewritten(p: Policy, t: Tables, t': Tables, since: int, id: Name)
    requires id in t.runs && id in t'.runs && t'.charges == t.charges
    requires SameIdentity(t'.runs[id], t.runs[id])
    requires if IsOpen(t.runs[id]) then !t'.runs[id].status.Completed? else t'.runs[id] == t.runs[id]
    ensures ExposureOf(t', p.client, since, p.mostCharge, id) <= ExposureOf(t, p.client, since, p.mostCharge, id)
  {
    hide Decimal.Worth, IsUsd;
  }

  lemma ExposurePoint(p: Policy, t: Tables, since: int, op: Op, id: Name)
    requires Inv(t) && Covered(p, t, since, op) && !op.DoReserve? && id in t.runs
    ensures ExposureOf(Apply(t, op), p.client, since, p.mostCharge, id)
         <= ExposureOf(t, p.client, since, p.mostCharge, id)
  {
    match op
    case DoComplete(c, now, commit) =>
      hide ExposureOf, Settled, Inv;
      if Completable(t, c) {
        ExposureSettled(p, t, since, c, now, id);
      }
    case _ =>
      RowsMove(t, op, id);
      hide ExposureOf, Apply, Inv, Covered;
      ExposureRewritten(p, t, Apply(t, op), since, id);
  }

  /** What an operation other than a reservation or a completion may do to a run. */
  predicate Moved(t: Tables, t': Tables, id: Name)
    requires id in t.runs
  {
    && id in t'.runs && t'.charges == t.charges
    && SameIdentity(t'.runs[id], t.runs[id])
    && if IsOpen(t.runs[id]) then !t'.runs[id].status.Completed? else t'.runs[id] == t.runs[id]
  }

  lemma UpdateMoves(t: Tables, other: Name, status: Status, settlement: Settlement, code: Option<string>, now: int,
                    commit: Commit, id: Name)
    requires id in t.runs && !status.Completed?
    ensures Moved(t, AfterUpdateState(t, other, status, settlement, code, now, commit).0, id)
  {
    hide Moved;
    if commit.Undone? || other !in t.runs || !IsOpen(t.runs[other]) {
      NothingMoves(t, t, id);
    } else {
      var row := t.runs[other].(status := status, settlement := settlement, errorCode := code, updatedAt := now);
      OneRowMoves(t, other, row, id);
    }
  }

  lemma OneRowMoves(t: Tables, other: Name, row: Run, id: Name)
    requires id in t.runs && other in t.runs && IsOpen(t.runs[other])
    requires SameIdentity(row, t.runs[other]) && !row.status.Completed?
    ensures Moved(t, t.(runs := t.runs[other := row]), id)
  {
    var t' := t.(runs := t.runs[other := row]);
    if id == other {
      assert t'.runs[id] == row && t.runs[id] == t.runs[other];
    } else {
      assert t'.runs[id] == t.runs[id];
    }
  }

  lemma NothingMoves(t: Tables, t': Tables, id: Name)
    requires id in t.runs && t'.runs == t.runs && t'.charges == t.charges
    ensures Moved(t, t', id)
  {
  }

  lemma RecoveryMoves(t: Tables, now: int, id: Name)
    requires id in t.runs
    ensures Moved(t, Recover(t, now), id)
  {
  }

  lemma RowsMove(t: Tables, op: Op, id: Name)
    requires !op.DoReserve? && !op.DoComplete? && id in t.runs
    ensures Moved(t, Apply(t, op), id)
  {
    hide AfterUpdateState, Recover, IsOpen, SameIdentity;
    match op
    case DoMarkRunning(other, now, commit) => UpdateMoves(t, other, Running, Pending, None, now, commit, id);
    case DoMarkFailed(other, settlement, code, now, commit) =>
      NothingMoves(t, t, id);
      UpdateMoves(t, other, Failed, settlement, if code == "" then None else Some(code), now, commit, id);
    case DoRecover(now) => RecoveryMoves(t, now, id);
    case DoReset(client, at, commit) => NothingMoves(t, Apply(t, op), id);
  }

  /** No operation but a reservation can raise the exposure. */
  lemma ExposureFalls(p: Policy, t: Tables, since: int, op: Op)
    requires Inv(t) && Covered(p, t, since, op) && !op.DoReserve?
    ensures var t' := Apply(t, op);
            Sum(t'.order, Exposure(t', p.client, since, p.mostCharge))
            <= Sum(t.order, Exposure(t, p.client, since, p.mostCharge))
  {
    forall id | id in t.order
      ensures ExposureOf(Apply(t, op), p.client, since, p.mostCharge, id)
           <= ExposureOf(t, p.client, since, p.mostCharge, id)
    {
      ExposurePoint(p, t, since, op, id);
    }
    SameOrder(t, op);
    hide Apply, Covered, ExposureOf;
    var t' := Apply(t, op);
    SumAtMost(t.order, Exposure(t', p.client, since, p.mostCharge), Exposure(t, p.client, since, p.mostCharge));
  }

  lemma SameOrder(t: Tables, op: Op)
    requires !op.DoReserve?
    ensures Apply(t, op).order == t.order
  {
  }

  lemma ReadableStep(p: Policy, t: Tables, since: int, op: Op)
    requires ReadableCharges(t) && Covered(p, t, since, op)
    ensures ReadableCharges(Apply(t, op))
  {
    hide Decimal.ReadsBack, QuotaVerdict, Lookup;
  }

  lemma BoundedStep(p: Policy, t: Tables, since: int, op: Op)
    requires Sound(p) && Bounded(p, t, since) && Covered(p, t, since, op)
    ensures Bounded(p, Apply(t, op), WindowAfter(p, t, since, op))
  {
    hide Inv, Decimal.ReadsBack, Sum, Lookup, QuotaVerdict, Inserted;
    InvStep(t, op);
    ReadableStep(p, t, since, op);
    match op
    case DoReserve(r, now, midnight, commit) =>
      LaterWindow(p, t, since, WindowAfter(p, t, since, op));
      if Apply(t, op) != t {
        if r.clientId == p.client {
          BoundedReserve(p, t, since, r, now, midnight, commit);
        } else {
          ExposureOther(p, t, since, r, now);
        }
      }
    case _ => ExposureFalls(p, t, since, op);
  }

  /** The window after a sequence of operations on a new database. */
  ghost function WindowOf(p: Policy, ops: seq<Op>, first: int): int {
    if ops == [] then first else
    var before := ops[..|ops| - 1];
    WindowAfter(p, ApplyAll(EMPTY, before), WindowOf(p, before, first), ops[|ops| - 1])
  }

  ghost predicate AllCovered(p: Policy, ops: seq<Op>, first: int) {
    ops == [] ||
    (var before := ops[..|ops| - 1];
     AllCovered(p, before, first)
     && Covered(p, ApplyAll(EMPTY, before), WindowOf(p, before, first), ops[|ops| - 1]))
  }

  lemma BoundedEmpty(p: Policy, first: int)
    requires Sound(p)
    ensures Bounded(p, EMPTY, first)
  {
    hide Inv, Decimal.ReadsBack, ExposureOf, ApplyAll;
    NothingStored();
    Product(p.mostRuns, 0, p.mostCharge);
  }

  lemma NothingStored()
    ensures Inv(EMPTY)
  {
    assert ApplyAll(EMPTY, []) == EMPTY;
    hide Inv;
    InvAlways([]);
  }

  lemma {:induction false} BoundedAlways(p: Policy, ops: seq<Op>, first: int)
    requires Sound(p) && AllCovered(p, ops, first)
    ensures Bounded(p, ApplyAll(EMPTY, ops), WindowOf(p, ops, first))
  {
    hide Covered, WindowAfter, Apply, Sound;
    if ops == [] {
      BoundedEmpty(p, first);
    } else {
      hide Bounded;
      var before := ops[..|ops| - 1];
      BoundedAlways(p, before, first);
      BoundedStep(p, ApplyAll(EMPTY, before), WindowOf(p, before, first), ops[|ops| - 1]);
    }
  }

  /**
    Overshoot bound. With at most `mostRuns` runs under way, each confirming at most `mostCharge`, the confirmed
    total of the current or any later window stays within limit - 1 billionth + mostRuns * mostCharge.
  */
  lemma OvershootBound(p: Policy, ops: seq<Op>, first: int, window: int)
    requires Sound(p) && AllCovered(p, ops, first) && window >= WindowOf(p, ops, first)
    ensures WindowTotal(ApplyAll(EMPTY, ops), p.client, window) <= p.limit - 1 + p.mostRuns * p.mostCharge
  {
    var t := ApplyAll(EMPTY, ops);
    BoundedAlways(p, ops, first);
    LaterWindow(p, t, WindowOf(p, ops, first), window);
    SumAtMost(t.order, Spent(t, p.client, WindowOf(p, ops, first)),
              Exposure(t, p.client, WindowOf(p, ops, first), p.mostCharge));
  }

  /** The window a reservation looks at. */
  function ReservationWindow(r: Reservation, midnight: int): int {
    if r.dayStart.Some? then r.dayStart.value else midnight
  }

  /** A new reservation that comes to its quota test. */
  predicate Tested(t: Tables, r: Reservation) {
    && !r.runId.Blank() && !r.clientId.Blank() && !r.deploymentId.Blank() && !r.fingerprint.Blank()
    && r.dailyLimit != "" && Lookup(t, r.clientId, r.key).None?
  }

  /** What the status page shows of the window the reservation looks at. */
  function Shown(t: Tables, r: Reservation, midnight: int): Result<(int, Option<int>)> {
    QuotaStatus(t, r.clientId, r.dailyLimit, ReservationWindow(r, midnight))
  }

  /**
    A reservation is refused for quota exactly when the status page shows nothing left of the same window, if and only
    if what is left fits 64 bits, which it always does under a positive limit. Where it does not fit, the page shows an
    amount left while every reservation is refused.
  */
  lemma RefusedWhenNothingLeft(t: Tables, r: Reservation, now: int, midnight: int, commit: Commit)
    requires Inv(t) && ReadableCharges(t) && Tested(t, r)
    requires Decimal.ParseDecimal(r.dailyLimit).Ok? && Decimal.ParseDecimal(r.dailyLimit).value != 0
    requires Shown(t, r, midnight).Ok?
    ensures var (used, left) := Shown(t, r, midnight).value;
            var refused := AfterReserve(t, r, now, midnight, commit).1 == QuotaExceeded;
            var limit := Decimal.ParseDecimal(r.dailyLimit).value;
            && (limit > 0 ==> limit - used >= Decimal.MIN_INT64)
            && (limit - used >= Decimal.MIN_INT64 <==> (refused <==> left == Some(0)))
            && (limit - used < Decimal.MIN_INT64 ==> refused && left.Some? && left.value > 0)
  {
    hide *;
    RefusedAtLimit(t, r, now, midnight, commit);
    LimitFits(r.dailyLimit);
    var (used, left) := Shown(t, r, midnight).value;
    var refused := AfterReserve(t, r, now, midnight, commit).1 == QuotaExceeded;
    LeftExactly(Decimal.ParseDecimal(r.dailyLimit).value, used, left, refused);
  }

  /** The test compares what was used with the limit; the page shows the wrapped difference. */
  lemma RefusedAtLimit(t: Tables, r: Reservation, now: int, midnight: int, commit: Commit)
    requires ReadableCharges(t) && Tested(t, r)
    requires Decimal.ParseDecimal(r.dailyLimit).Ok? && Decimal.ParseDecimal(r.dailyLimit).value != 0
    requires Shown(t, r, midnight).Ok?
    ensures var (used, left) := Shown(t, r, midnight).value;
            var limit := Decimal.ParseDecimal(r.dailyLimit).value;
            && 0 <= used <= Decimal.MAX_INT64 && left == Some(AtLeastZero(Decimal.Wrap64(limit - used)))
            && (AfterReserve(t, r, now, midnight, commit).1 == QuotaExceeded <==> limit <= used)
  {
    hide Decimal.ParseDecimal, UsedAmong, Decimal.Wrap64, ReadableCharges, Lookup, Inserted;
    UsedIsTotal(t, t.order, r.clientId, WindowStart(t, r.clientId, ReservationWindow(r, midnight)));
  }

  function AtLeastZero(x: int): int {
    if x < 0 then 0 else x
  }

  /** The wrapped difference says what the comparison says exactly when it fits. */
  lemma LeftExactly(limit: int, used: int, left: Option<int>, refused: bool)
    requires Decimal.IsInt64(limit) && 0 <= used <= Decimal.MAX_INT64
    requires left == Some(AtLeastZero(Decimal.Wrap64(limit - used))) && (refused <==> limit <= used)
    ensures limit > 0 ==> limit - used >= Decimal.MIN_INT64
    ensures limit - used >= Decimal.MIN_INT64 <==> (refused <==> left == Some(0))
    ensures limit - used < Decimal.MIN_INT64 ==> refused && left.Some? && left.value > 0
  {
  }

  /** Without a status there is no reservation, and neither is there under a limit that does not parse or is zero. */
  lemma NoStatusNoReservation(t: Tables, r: Reservation, now: int, midnight: int, commit: Commit)
    requires Tested(t, r)
    ensures Shown(t, r, midnight).Err? ==> AfterReserve(t, r, now, midnight, commit) == (t, ReserveFailed)
    ensures Decimal.ParseDecimal(r.dailyLimit) == Ok(0) ==>
              AfterReserve(t, r, now, midnight, commit) == (t, ReserveFailed)
  {
    hide Decimal.ParseDecimal, UsedAmong;
  }

  // ------------------------------------------------ a limit under which the two disagree

  const SPENDER := Name("client")
  const FIRST := Reservation(Name("first"), SPENDER, Name("model"), Name(""), Name("a"), "", Some(0))
  const SECOND :=
    Reservation(Name("second"), SPENDER, Name("model"), Name(""), Name("b"), Decimal.LARGE_NEGATIVE, Some(0))
  const BILL := Completion(Name("first"), "", "", 1, 1, "USD", "1", "", "")

  /** One dollar was used. */
  const SPENT: Tables := Settled(Inserted(EMPTY, FIRST, 1), BILL, 2)

  lemma OneDollar()
    ensures Decimal.ParseDecimal("1") == Ok(1_000_000_000)
  {
    hide Decimal.ParseDecimal;
    assert "" + Decimal.GrammarText("1", None) == "1";
    assert Decimal.GrammarValue("1", None) == 1_000_000_000 by {
      assert Decimal.DigitsValue("1") == 1;
    }
    Decimal.ParseDecimalExact(false, "1", None);
  }

  lemma DollarUsed()
    ensures UsedAmong(SPENT, SPENT.order, SPENDER, 0) == Ok(1_000_000_000)
  {
    OneDollar();
    hide Decimal.ParseDecimal;
    var id := Name("first");
    assert SPENT.order == [id] && SPENT.order[..0] == [];
    assert UsedAmong(SPENT, SPENT.order[..0], SPENDER, 0) == Ok(0);
    assert Counts(SPENT, id, SPENDER, 0) && SPENT.charges[id].totalCharge == "1";
  }

  /** A client that spent a dollar under this limit is shown a fortune, and is refused. */
  lemma RefusedWithAmountLeft(now: int, midnight: int, commit: Commit)
    ensures SPENT == ApplyAll(EMPTY, [DoReserve(FIRST, 1, 0, Stored), DoComplete(BILL, 2, Stored)])
    ensures Shown(SPENT, SECOND, midnight) == Ok((1_000_000_000, Some(9_223_372_036_709_551_616)))
    ensures AfterReserve(SPENT, SECOND, now, midnight, commit) == (SPENT, QuotaExceeded)
  {
    SpentHistory();
    DollarUsed();
    Decimal.LargeNegativeParses();
    hide Decimal.ParseDecimal, UsedAmong, ApplyAll;
    assert SPENT.resets == map[] && SPENT.keys == map[];
    hide Settled, Inserted;
  }

  lemma SpentHistory()
    ensures SPENT == ApplyAll(EMPTY, [DoReserve(FIRST, 1, 0, Stored), DoComplete(BILL, 2, Stored)])
  {
    var ops := [DoReserve(FIRST, 1, 0, Stored), DoComplete(BILL, 2, Stored)];
    assert ops[..1] == [ops[0]] && ops[..1][..0] == [];
    assert ApplyAll(EMPTY, ops[..1][..0]) == EMPTY;
    assert ApplyAll(EMPTY, ops[..1]) == Inserted(EMPTY, FIRST, 1);
  }

  lemma LimitFits(text: string)
    requires Decimal.ParseDecimal(text).Ok?
    ensures Decimal.IsInt64(Decimal.ParseDecimal(text).value)
  {
  }
}
