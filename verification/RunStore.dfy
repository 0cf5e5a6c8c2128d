/**
  The run tables. One connection serializes all transactions, so each public operation is one atomic step; its
  last parameter says how its commit ends, because a caller can be told of an error after the data was stored.
*/
module RunStore {
  import opened Names
  import opened Text
  import opened Wrappers
  import Decimal

  datatype Status = Accepted | Running | Completed | Failed

  datatype Settlement = Pending | Confirmed | Unconfirmed | NotChargeable | SettlementFailed

  datatype Run = Run(clientId: Name, deploymentId: Name, status: Status, settlement: Settlement,
                     fingerprint: Name, response: Option<string>, billing: Option<string>,
                     errorCode: Option<string>, createdAt: int, updatedAt: int)

  datatype KeyRow = KeyRow(runId: Name, fingerprint: Name)

  datatype UsageRow = UsageRow(inputTokens: int, outputTokens: int)

  datatype ChargeRow = ChargeRow(currency: string, totalCharge: string)

  datatype CostRow = CostRow(runId: Name, providerId: string, payload: string, observedAt: int)

  /** `order` lists the runs as they were inserted. */
  datatype Tables = Tables(runs: map<Name, Run>, order: seq<Name>, keys: map<(Name, Name), KeyRow>,
                           usage: map<Name, UsageRow>, charges: map<Name, ChargeRow>, costs: seq<CostRow>,
                           resets: map<Name, int>)

  datatype Reservation = Reservation(runId: Name, clientId: Name, deploymentId: Name, key: Name,
                                     fingerprint: Name, dailyLimit: string, dayStart: Option<int>)

  datatype Completion = Completion(runId: Name, response: string, billing: string, inputTokens: int,
                                   outputTokens: int, currency: string, totalCharge: string,
                                   providerId: string, costPayload: string)

  datatype StoredRun = StoredRun(runId: Name, status: Status, settlement: Settlement, fingerprint: Name,
                                 response: Option<string>, billing: Option<string>)

  datatype ReserveResult = Reserved(record: StoredRun, created: bool) | QuotaExceeded | ReserveFailed

  /** How a commit ends: stored, undone, or stored although the caller sees an error. */
  datatype Commit = Stored | Undone | Unacknowledged

  predicate IsOpen(run: Run) {
    run.status.Accepted? || run.status.Running?
  }

  // ------------------------------------------------ the daily quota

  function UpperAscii(c: char): char {
    if 'a' <= c <= 'z' then (c as int - 32) as char else c
  }

  predicate IsUsd(currency: string) {
    && |currency| == 3
    && UpperAscii(currency[0]) == 'U' && UpperAscii(currency[1]) == 'S' && UpperAscii(currency[2]) == 'D'
  }

  /** The rows that count against a client's limit in a window that starts at `since`. */
  predicate Counts(t: Tables, id: Name, client: Name, since: int) {
    && id in t.runs && id in t.charges
    && t.runs[id].clientId == client
    && t.runs[id].status.Completed? && t.runs[id].settlement.Confirmed?
    && IsUsd(t.charges[id].currency)
    && t.runs[id].createdAt >= since
  }

  /** Sums the counting rows among `ids` in order, as text is read and added row by row. */
  function UsedAmong(t: Tables, ids: seq<Name>, client: Name, since: int): Result<int> {
    if ids == [] then Ok(0) else
    var total :- UsedAmong(t, ids[..|ids| - 1], client, since);
    var id := ids[|ids| - 1];
    if !Counts(t, id, client, since) then Ok(total) else
    var value :- Decimal.ParseDecimal(t.charges[id].totalCharge);
    Decimal.Add(total, value)
  }

  function WindowStart(t: Tables, client: Name, dayStart: int): int {
    if client in t.resets && t.resets[client] > dayStart then t.resets[client] else dayStart
  }

  /** One line of the status page: the amount used in the window and, under a limit, what is left of it. */
  function QuotaStatus(t: Tables, client: Name, limitText: string, dayStart: int): Result<(int, Option<int>)> {
    var used :- UsedAmong(t, t.order, client, WindowStart(t, client, dayStart));
    if limitText == "" then Ok((used, None)) else
    var limit :- Decimal.ParseDecimal(limitText);
    var left := Decimal.Wrap64(limit - used);
    Ok((used, Some(if left < 0 then 0 else left)))
  }

  /** The quota test of a reservation. */
  function QuotaVerdict(t: Tables, r: Reservation, midnight: int): Result<bool> {
    if r.dailyLimit == "" then Ok(true) else
    var limit :- Decimal.ParseDecimal(r.dailyLimit);
    if limit == 0 then Err("invalid daily quota limit") else
    var since := WindowStart(t, r.clientId, if r.dayStart.Some? then r.dayStart.value else midnight);
    var used :- UsedAmong(t, t.order, r.clientId, since);
    Ok(used < limit)
  }

  // ------------------------------------------------ the transactions

  function Lookup(t: Tables, client: Name, key: Name): Option<StoredRun> {
    if !key.Blank() && (client, key) in t.keys && t.keys[(client, key)].runId in t.runs then
      var row := t.keys[(client, key)];
      var run := t.runs[row.runId];
      Some(StoredRun(row.runId, run.status, run.settlement, row.fingerprint, run.response, run.billing))
    else None
  }

  function NewRun(r: Reservation, now: int): Run {
    Run(r.clientId, r.deploymentId, Accepted, Pending, r.fingerprint, None, None, None, now, now)
  }

  function Inserted(t: Tables, r: Reservation, now: int): Tables {
    t.(runs := t.runs[r.runId := NewRun(r, now)],
       order := t.order + [r.runId],
       keys := if r.key.Blank() then t.keys else t.keys[(r.clientId, r.key) := KeyRow(r.runId, r.fingerprint)])
  }

  function AfterReserve(t: Tables, r: Reservation, now: int, midnight: int, commit: Commit): (Tables, ReserveResult) {
    if r.runId.Blank() || r.clientId.Blank() || r.deploymentId.Blank() || r.fingerprint.Blank() then
      (t, ReserveFailed)
    else
    match Lookup(t, r.clientId, r.key)
    case Some(record) => (t, if commit.Stored? then Reserved(record, false) else ReserveFailed)
    case None =>
      match QuotaVerdict(t, r, midnight)
      case Err(_) => (t, ReserveFailed)
      case Ok(false) => (t, QuotaExceeded)
      case Ok(true) =>
        // The primary keys of the two tables refuse a run or a key that exists.
        if r.runId in t.runs || (!r.key.Blank() && (r.clientId, r.key) in t.keys) then (t, ReserveFailed)
        else
          match commit
          case Stored =>
            (Inserted(t, r, now), Reserved(StoredRun(r.runId, Accepted, Pending, r.fingerprint, None, None), true))
          case Undone => (t, ReserveFailed)
          case Unacknowledged => (Inserted(t, r, now), ReserveFailed)
  }

  /** Moves an open run; the flag tells the caller whether it worked. */
  function AfterUpdateState(t: Tables, id: Name, status: Status, settlement: Settlement, code: Option<string>,
                       now: int, commit: Commit): (Tables, bool)
  {
    if commit.Undone? || id !in t.runs || !IsOpen(t.runs[id]) then (t, false) else
    (t.(runs := t.runs[id := t.runs[id].(status := status, settlement := settlement, errorCode := code,
                                         updatedAt := now)]),
     commit.Stored?)
  }

  function AfterMarkRunning(t: Tables, id: Name, now: int, commit: Commit): (Tables, bool) {
    AfterUpdateState(t, id, Running, Pending, None, now, commit)
  }

  function AfterMarkFailed(t: Tables, id: Name, settlement: Settlement, code: string, now: int, commit: Commit)
    : (Tables, bool)
  {
    if settlement.Pending? || settlement.Confirmed? then (t, false)
    else AfterUpdateState(t, id, Failed, settlement, if code == "" then None else Some(code), now, commit)
  }

  predicate Completable(t: Tables, c: Completion) {
    && c.runId in t.runs && IsOpen(t.runs[c.runId])
    && c.runId !in t.usage && c.runId !in t.charges
    && c.inputTokens >= 0 && c.outputTokens >= 0
  }

  predicate HasCosts(c: Completion) {
    c.costPayload != "" && c.costPayload != "null" && c.costPayload != "[]"
  }

  function Settled(t: Tables, c: Completion, now: int): Tables
    requires c.runId in t.runs
  {
    t.(runs := t.runs[c.runId := t.runs[c.runId].(status := Completed, settlement := Confirmed, updatedAt := now,
                                                  response := Some(c.response), billing := Some(c.billing))],
       usage := t.usage[c.runId := UsageRow(c.inputTokens, c.outputTokens)],
       charges := t.charges[c.runId := ChargeRow(c.currency, c.totalCharge)],
       costs := if HasCosts(c) then t.costs + [CostRow(c.runId, c.providerId, c.costPayload, now)] else t.costs)
  }

  function AfterComplete(t: Tables, c: Completion, now: int, commit: Commit): (Tables, bool) {
    if commit.Undone? || !Completable(t, c) then (t, false) else (Settled(t, c, now), commit.Stored?)
  }

  /** Opening the database fails every run that was under way. */
  function Recover(t: Tables, now: int): Tables {
    t.(runs := map id | id in t.runs ::
         if IsOpen(t.runs[id]) then
           t.runs[id].(status := Failed, settlement := Unconfirmed, errorCode := Some("recovered_incomplete_run"),
                       updatedAt := now)
         else t.runs[id])
  }

  /** A client id of white space alone is refused; any other is stored as it is. */
  function AfterReset(t: Tables, client: Name, at: int, commit: Commit): (Tables, bool) {
    if commit.Undone? || Trim(client.text) == "" then (t, false)
    else (t.(resets := t.resets[client := at]), commit.Stored?)
  }

  /** The dollar in any case. */
  lemma UsdMeans(currency: string)
    ensures IsUsd(currency) <==> currency in {"USD", "USd", "UsD", "Usd", "uSD", "uSd", "usD", "usd"}
  {
    if |currency| == 3 {
      assert currency == [currency[0], currency[1], currency[2]];
      UpperMeans(currency[0]);
      UpperMeans(currency[1]);
      UpperMeans(currency[2]);
    }
  }

  lemma UpperMeans(c: char)
    ensures UpperAscii(c) == 'U' <==> c == 'U' || c == 'u'
    ensures UpperAscii(c) == 'S' <==> c == 'S' || c == 's'
    ensures UpperAscii(c) == 'D' <==> c == 'D' || c == 'd'
  {
  }

  /** The rows that count are the confirmed dollar charges of this client's runs since the window began. */
  lemma CountsMeans(t: Tables, id: Name, client: Name, since: int)
    ensures Counts(t, id, client, since)
       <==> && id in t.runs && id in t.charges && t.runs[id].clientId == client && t.runs[id].createdAt >= since
            && t.runs[id].status == Completed && t.runs[id].settlement == Confirmed
            && t.charges[id].currency in {"USD", "USd", "UsD", "Usd", "uSD", "uSd", "usD", "usd"}
  {
    hide IsUsd;
    if id in t.charges {
      UsdMeans(t.charges[id].currency);
    }
  }

  // ------------------------------------------------ what is written, column by column

  /** Only the row of one run may differ. */
  ghost predicate OnlyRun(t: Tables, t': Tables, id: Name) {
    && t'.order == t.order && t'.keys == t.keys && t'.usage == t.usage && t'.charges == t.charges
    && t'.costs == t.costs && t'.resets == t.resets && t'.runs.Keys == t.runs.Keys
    && forall other :: other in t.runs && other != id ==> t'.runs[other] == t.runs[other]
  }

  /** A completion is on record: its counts, its charge, its texts and its costs, and nothing else has changed. */
  ghost predicate BooksCompletion(t: Tables, t': Tables, c: Completion, now: int) {
    && c.runId in t.runs
    && OnlyRun(t, t'.(usage := t.usage, charges := t.charges, costs := t.costs), c.runId)
    && (var run := t'.runs[c.runId];
        && run.status == Completed && run.settlement == Confirmed && run.updatedAt == now
        && run.response == Some(c.response) && run.billing == Some(c.billing)
        && run.clientId == t.runs[c.runId].clientId && run.deploymentId == t.runs[c.runId].deploymentId
        && run.fingerprint == t.runs[c.runId].fingerprint && run.createdAt == t.runs[c.runId].createdAt
        && run.errorCode == t.runs[c.runId].errorCode)
    && t'.usage.Keys == t.usage.Keys + {c.runId} && t'.charges.Keys == t.charges.Keys + {c.runId}
    && t'.usage[c.runId].inputTokens == c.inputTokens && t'.usage[c.runId].outputTokens == c.outputTokens
    && t'.charges[c.runId].currency == c.currency && t'.charges[c.runId].totalCharge == c.totalCharge
    && (forall id :: id in t.usage && id != c.runId ==> t'.usage[id] == t.usage[id])
    && (forall id :: id in t.charges && id != c.runId ==> t'.charges[id] == t.charges[id])
    && if c.costPayload in {"", "null", "[]"} then t'.costs == t.costs
       else
         && |t'.costs| == |t.costs| + 1 && t'.costs[..|t.costs|] == t.costs
         && var cost := t'.costs[|t.costs|];
            && cost.runId == c.runId && cost.providerId == c.providerId
            && cost.payload == c.costPayload && cost.observedAt == now
  }

  /** A run that a completion may still settle. */
  predicate MayComplete(t: Tables, c: Completion) {
    && c.runId in t.runs && t.runs[c.runId].status in {Accepted, Running}
    && c.runId !in t.usage && c.runId !in t.charges && 0 <= c.inputTokens && 0 <= c.outputTokens
  }

  /** A new run is on record under its client, deployment and key, and nothing else has changed. */
  ghost predicate BooksReservation(t: Tables, t': Tables, r: Reservation, now: int) {
    && r.runId !in t.runs && t'.runs.Keys == t.runs.Keys + {r.runId}
    && (forall id :: id in t.runs ==> t'.runs[id] == t.runs[id])
    && (var run := t'.runs[r.runId];
        && run.clientId == r.clientId && run.deploymentId == r.deploymentId && run.fingerprint == r.fingerprint
        && run.status == Accepted && run.settlement == Pending && run.createdAt == now && run.updatedAt == now
        && run.response.None? && run.billing.None? && run.errorCode.None?)
    && |t'.order| == |t.order| + 1 && t'.order[..|t.order|] == t.order && t'.order[|t.order|] == r.runId
    && t'.usage == t.usage && t'.charges == t.charges && t'.costs == t.costs && t'.resets == t.resets
    && if r.key.text == "" then t'.keys == t.keys
       else
         && (r.clientId, r.key) !in t.keys && t'.keys.Keys == t.keys.Keys + {(r.clientId, r.key)}
         && t'.keys[(r.clientId, r.key)].runId == r.runId
         && t'.keys[(r.clientId, r.key)].fingerprint == r.fingerprint
         && forall k :: k in t.keys ==> t'.keys[k] == t.keys[k]
  }

  /** An open run has these columns now, and nothing else has changed. */
  ghost predicate BooksState(t: Tables, t': Tables, id: Name, status: Status, settlement: Settlement,
                             code: Option<string>, now: int)
  {
    && id in t.runs && t.runs[id].status in {Accepted, Running} && OnlyRun(t, t', id)
    && var run := t'.runs[id];
       && run.status == status && run.settlement == settlement && run.errorCode == code && run.updatedAt == now
       && run.clientId == t.runs[id].clientId && run.deploymentId == t.runs[id].deploymentId
       && run.fingerprint == t.runs[id].fingerprint && run.createdAt == t.runs[id].createdAt
       && run.response == t.runs[id].response && run.billing == t.runs[id].billing
  }

  /** Every run that was open has failed, and nothing else has changed. */
  ghost predicate BooksRecovery(t: Tables, t': Tables, now: int) {
    && t'.order == t.order && t'.keys == t.keys && t'.usage == t.usage && t'.charges == t.charges
    && t'.costs == t.costs && t'.resets == t.resets && t'.runs.Keys == t.runs.Keys
    && forall id :: id in t.runs ==>
         if t.runs[id].status in {Completed, Failed} then t'.runs[id] == t.runs[id]
         else
           && t'.runs[id].status == Failed && t'.runs[id].settlement == Unconfirmed
           && t'.runs[id].errorCode == Some("recovered_incomplete_run") && t'.runs[id].updatedAt == now
           && t'.runs[id].clientId == t.runs[id].clientId && t'.runs[id].deploymentId == t.runs[id].deploymentId
           && t'.runs[id].fingerprint == t.runs[id].fingerprint && t'.runs[id].createdAt == t.runs[id].createdAt
           && t'.runs[id].response == t.runs[id].response && t'.runs[id].billing == t.runs[id].billing
  }

  /** The client has spent less than its limit in the window since the day began or its quota was reset. */
  predicate WithinQuota(t: Tables, r: Reservation, midnight: int) {
    r.dailyLimit == ""
    || (var day := if r.dayStart.Some? then r.dayStart.value else midnight;
        var reset := if r.clientId in t.resets then t.resets[r.clientId] else day;
        var limit := Decimal.ParseDecimal(r.dailyLimit);
        var used := UsedAmong(t, t.order, r.clientId, if reset > day then reset else day);
        limit.Ok? && limit.value != 0 && used.Ok? && used.value < limit.value)
  }

  lemma CompleteBooks(t: Tables, c: Completion, now: int, commit: Commit)
    ensures var (t', ok) := AfterComplete(t, c, now, commit);
            && (ok <==> commit.Stored? && MayComplete(t, c))
            && (if commit.Undone? || !MayComplete(t, c) then t' == t else BooksCompletion(t, t', c, now))
  {
    hide BooksCompletion, Settled;
    if c.runId in t.runs {
      SettledBooks(t, c, now);
    }
  }

  lemma SettledBooks(t: Tables, c: Completion, now: int)
    requires c.runId in t.runs
    ensures BooksCompletion(t, Settled(t, c, now), c, now)
  {
    var t' := Settled(t, c, now);
    assert t'.usage.Keys == t.usage.Keys + {c.runId};
    assert t'.charges.Keys == t.charges.Keys + {c.runId};
    assert OnlyRun(t, t'.(usage := t.usage, charges := t.charges, costs := t.costs), c.runId);
  }

  lemma StateBooks(t: Tables, id: Name, status: Status, settlement: Settlement, code: Option<string>, now: int,
                   commit: Commit)
    ensures var (t', ok) := AfterUpdateState(t, id, status, settlement, code, now, commit);
            && (ok <==> commit.Stored? && id in t.runs && t.runs[id].status in {Accepted, Running})
            && (if commit.Undone? || id !in t.runs || t.runs[id].status in {Completed, Failed} then t' == t
                else BooksState(t, t', id, status, settlement, code, now))
  {
  }

  lemma RecoverBooks(t: Tables, now: int)
    ensures BooksRecovery(t, Recover(t, now), now)
  {
  }

  /** When a reservation makes a run, and what it leaves otherwise. */
  lemma ReserveBooks(t: Tables, r: Reservation, now: int, midnight: int, commit: Commit)
    ensures var (t', result) := AfterReserve(t, r, now, midnight, commit);
            var granted := && r.runId.text != "" && r.clientId.text != "" && r.deploymentId.text != ""
                         && r.fingerprint.text != "" && r.runId !in t.runs
                         && (r.key.text == "" || (r.clientId, r.key) !in t.keys) && WithinQuota(t, r, midnight);
            && (result.Reserved? && result.created <==> commit.Stored? && granted)
            && (result.Reserved? && result.created ==>
                  result.record == StoredRun(r.runId, Accepted, Pending, r.fingerprint, None, None))
            && (if granted && !commit.Undone? then BooksReservation(t, t', r, now) else t' == t)
  {
    hide Decimal.ParseDecimal, UsedAmong, BooksReservation;
    InsertedBooks(t, r, now);
  }

  lemma InsertedBooks(t: Tables, r: Reservation, now: int)
    ensures r.runId !in t.runs && (r.key.text == "" || (r.clientId, r.key) !in t.keys) ==>
              BooksReservation(t, Inserted(t, r, now), r, now)
  {
  }

  /** A key on record is answered with the columns of its run. */
  lemma LookupMeans(t: Tables, client: Name, key: Name)
    ensures Lookup(t, client, key).Some?
       <==> key.text != "" && (client, key) in t.keys && t.keys[(client, key)].runId in t.runs
    ensures Lookup(t, client, key).Some? ==>
              var record, row := Lookup(t, client, key).value, t.keys[(client, key)];
              var run := t.runs[row.runId];
              && record.runId == row.runId && record.fingerprint == row.fingerprint
              && record.status == run.status && record.settlement == run.settlement
              && record.response == run.response && record.billing == run.billing
  {
  }

  // ------------------------------------------------ the database object

  class SQLite {
    var runs: map<Name, Run>
    var order: seq<Name>
    var keys: map<(Name, Name), KeyRow>
    var usage: map<Name, UsageRow>
    var charges: map<Name, ChargeRow>
    var costs: seq<CostRow>
    var resets: map<Name, int>

    function State(): Tables
      reads this
    {
      Tables(runs, order, keys, usage, charges, costs, resets)
    }

    /** Opens existing tables and recovers the runs a previous process left open. */
    constructor Open(t: Tables, now: int)
      ensures State() == Recover(t, now)
      ensures BooksRecovery(t, State(), now)
    {
      runs := Recover(t, now).runs;
      order, keys, usage, charges, costs, resets := t.order, t.keys, t.usage, t.charges, t.costs, t.resets;
    }

    method DailyQuotaUsed(client: Name, since: int) returns (used: Result<int>)
      ensures used == UsedAmong(State(), order, client, since)
    {
      var total := 0;
      for i := 0 to |order|
        invariant UsedAmong(State(), order[..i], client, since) == Ok(total)
      {
        assert order[..i + 1][..i] == order[..i];
        var id := order[i];
        if Counts(State(), id, client, since) {
          var value := Decimal.ParseDecimal(charges[id].totalCharge);
          if value.Err? {
            ErrorSticks(State(), order, i + 1, client, since);
            return Err(value.reason);
          }
          var sum := Decimal.Add(total, value.value);
          if sum.Err? {
            ErrorSticks(State(), order, i + 1, client, since);
            return sum;
          }
          total := sum.value;
        }
      }
      assert order[..|order|] == order;
      used := Ok(total);
    }

    method Reserve(r: Reservation, now: int, midnight: int, commit: Commit) returns (result: ReserveResult)
      modifies this
      ensures (State(), result) == AfterReserve(old(State()), r, now, midnight, commit)
    {
      if r.runId.Blank() || r.clientId.Blank() || r.deploymentId.Blank() || r.fingerprint.Blank() {
        return ReserveFailed;
      }
      var record := Lookup(State(), r.clientId, r.key);
      if record.Some? {
        return if commit.Stored? then Reserved(record.value, false) else ReserveFailed;
      }
      if r.dailyLimit != "" {
        var limit := Decimal.ParseDecimal(r.dailyLimit);
        if limit.Err? || limit.value == 0 {
          return ReserveFailed;
        }
        var since := WindowStart(State(), r.clientId, if r.dayStart.Some? then r.dayStart.value else midnight);
        var used := DailyQuotaUsed(r.clientId, since);
        if used.Err? {
          return ReserveFailed;
        }
        if used.value >= limit.value {
          return QuotaExceeded;
        }
      }
      if r.runId in runs || (!r.key.Blank() && (r.clientId, r.key) in keys) || commit.Undone? {
        return ReserveFailed;
      }
      runs := runs[r.runId := NewRun(r, now)];
      order := order + [r.runId];
      if !r.key.Blank() {
        keys := keys[(r.clientId, r.key) := KeyRow(r.runId, r.fingerprint)];
      }
      result := if commit.Stored? then Reserved(StoredRun(r.runId, Accepted, Pending, r.fingerprint, None, None), true)
                else ReserveFailed;
    }

    method MarkRunning(id: Name, now: int, commit: Commit) returns (ok: bool)
      modifies this`runs
      ensures (State(), ok) == AfterMarkRunning(old(State()), id, now, commit)
      ensures ok <==> commit.Stored? && id in old(runs) && old(runs)[id].status in {Accepted, Running}
      ensures ok ==> BooksState(old(State()), State(), id, Running, Pending, None, now)
    {
      ok := UpdateState(id, Running, Pending, None, now, commit);
    }

    method MarkFailed(id: Name, settlement: Settlement, code: string, now: int, commit: Commit) returns (ok: bool)
      modifies this`runs
      ensures (State(), ok) == AfterMarkFailed(old(State()), id, settlement, code, now, commit)
      ensures ok <==>
                && commit.Stored? && settlement in {Unconfirmed, SettlementFailed, NotChargeable}
                && id in old(runs) && old(runs)[id].status in {Accepted, Running}
      ensures ok ==>
                BooksState(old(State()), State(), id, Failed, settlement, if code == "" then None else Some(code), now)
    {
      if settlement.Pending? || settlement.Confirmed? {
        return false;
      }
      ok := UpdateState(id, Failed, settlement, if code == "" then None else Some(code), now, commit);
    }

    method UpdateState(id: Name, status: Status, settlement: Settlement, code: Option<string>, now: int, commit: Commit)
      returns (ok: bool)
      modifies this`runs
      ensures (State(), ok) == AfterUpdateState(old(State()), id, status, settlement, code, now, commit)
      ensures ok <==> commit.Stored? && id in old(runs) && old(runs)[id].status in {Accepted, Running}
      ensures ok ==> BooksState(old(State()), State(), id, status, settlement, code, now)
      ensures !ok && !commit.Unacknowledged? ==> State() == old(State())
    {
      hide BooksState;
      StateBooks(State(), id, status, settlement, code, now, commit);
      if commit.Undone? || id !in runs || !IsOpen(runs[id]) {
        return false;
      }
      runs := runs[id := runs[id].(status := status, settlement := settlement, errorCode := code, updatedAt := now)];
      ok := commit.Stored?;
    }

    /** Four statements in one transaction: a refused one undoes those before it. */
    method Complete(c: Completion, now: int, commit: Commit) returns (ok: bool)
      modifies this
      ensures (State(), ok) == AfterComplete(old(State()), c, now, commit)
      ensures ok <==> commit.Stored? && MayComplete(old(State()), c)
      ensures ok ==> BooksCompletion(old(State()), State(), c, now)
      ensures !ok && !commit.Unacknowledged? ==> State() == old(State())
    {
      hide BooksCompletion;
      CompleteBooks(State(), c, now, commit);
      if c.runId !in runs || c.runId in usage || c.inputTokens < 0 || c.outputTokens < 0 {
        return false;
      }
      var newUsage := usage[c.runId := UsageRow(c.inputTokens, c.outputTokens)];
      if c.runId in charges {
        return false;
      }
      var newCharges := charges[c.runId := ChargeRow(c.currency, c.totalCharge)];
      var newCosts := costs;
      if HasCosts(c) {
        newCosts := newCosts + [CostRow(c.runId, c.providerId, c.costPayload, now)];
      }
      var run := runs[c.runId];
      if !IsOpen(run) || commit.Undone? {
        return false;
      }
      usage, charges, costs := newUsage, newCharges, newCosts;
      runs := runs[c.runId := run.(status := Completed, settlement := Confirmed, updatedAt := now,
                                   response := Some(c.response), billing := Some(c.billing))];
      ok := commit.Stored?;
    }

    method ResetDailyQuota(client: Name, at: int, commit: Commit) returns (ok: bool)
      modifies this`resets
      ensures (State(), ok) == AfterReset(old(State()), client, at, commit)
      ensures ok <==> commit.Stored? && exists i :: 0 <= i < |client.text| && !IsSpace(client.text[i])
      ensures resets == old(resets) || resets == old(resets)[client := at]
      ensures ok ==> client in resets && resets[client] == at
    {
      TrimmedAway(client.text);
      if Trim(client.text) == "" || commit.Undone? {
        return false;
      }
      resets := resets[client := at];
      ok := commit.Stored?;
    }
  }

  /** An unreadable or overflowing row stays an error whatever follows it. */
  lemma {:induction false} ErrorSticks(t: Tables, ids: seq<Name>, n: nat, client: Name, since: int)
    requires n <= |ids| && UsedAmong(t, ids[..n], client, since).Err?
    ensures UsedAmong(t, ids, client, since) == Err(UsedAmong(t, ids[..n], client, since).reason)
    decreases |ids|
  {
    if n < |ids| {
      assert ids[..|ids| - 1][..n] == ids[..n];
      ErrorSticks(t, ids[..|ids| - 1], n, client, since);
    } else {
      assert ids[..n] == ids;
    }
  }

  // ------------------------------------------------ every run of operations

  datatype Op =
    | DoReserve(r: Reservation, now: int, midnight: int, commit: Commit)
    | DoMarkRunning(id: Name, now: int, commit: Commit)
    | DoMarkFailed(id: Name, settlement: Settlement, code: string, now: int, commit: Commit)
    | DoComplete(c: Completion, now: int, commit: Commit)
    | DoRecover(now: int)
    | DoReset(client: Name, at: int, commit: Commit)

  function Apply(t: Tables, op: Op): Tables {
    match op
    case DoReserve(r, now, midnight, commit) => AfterReserve(t, r, now, midnight, commit).0
    case DoMarkRunning(id, now, commit) => AfterMarkRunning(t, id, now, commit).0
    case DoMarkFailed(id, settlement, code, now, commit) => AfterMarkFailed(t, id, settlement, code, now, commit).0
    case DoComplete(c, now, commit) => AfterComplete(t, c, now, commit).0
    case DoRecover(now) => Recover(t, now)
    case DoReset(client, at, commit) => AfterReset(t, client, at, commit).0
  }

  function ApplyAll(t: Tables, ops: seq<Op>): Tables {
    if ops == [] then t else Apply(ApplyAll(t, ops[..|ops| - 1]), ops[|ops| - 1])
  }

  const EMPTY := Tables(map[], [], map[], map[], map[], [], map[])

  predicate LegalPair(run: Run) {
    match run.status
    case Accepted => run.settlement.Pending?
    case Running => run.settlement.Pending?
    case Completed => run.settlement.Confirmed?
    case Failed => run.settlement.Unconfirmed? || run.settlement.SettlementFailed? || run.settlement.NotChargeable?
  }

  ghost predicate Settlements(t: Tables) {
    forall id :: id in t.runs ==>
      && LegalPair(t.runs[id])
      && (id in t.usage <==> t.runs[id].status.Completed?)
      && (id in t.charges <==> t.runs[id].status.Completed?)
      && (t.runs[id].response.Some? <==> t.runs[id].status.Completed?)
      && (t.runs[id].billing.Some? <==> t.runs[id].status.Completed?)
  }

  /** Keys name runs of their own client and fingerprint, and no two keys name the same run. */
  ghost predicate KeysConsistent(t: Tables) {
    && (forall k :: k in t.keys ==>
          && !k.1.Blank() && t.keys[k].runId in t.runs
          && t.runs[t.keys[k].runId].clientId == k.0
          && t.runs[t.keys[k].runId].fingerprint == t.keys[k].fingerprint)
    && (forall k, l :: k in t.keys && l in t.keys && t.keys[k].runId == t.keys[l].runId ==> k == l)
  }

  ghost predicate Ordered(t: Tables) {
    && (forall id :: id in t.order <==> id in t.runs)
    && (forall i, j :: 0 <= i < j < |t.order| ==> t.order[i] != t.order[j])
    && (forall id :: id in t.usage || id in t.charges ==> id in t.runs)
  }

  ghost predicate Inv(t: Tables) {
    Settlements(t) && KeysConsistent(t) && Ordered(t)
  }

  predicate FreshFor(t: Tables, r: Reservation) {
    r.runId !in t.runs && (r.key.Blank() || (r.clientId, r.key) !in t.keys)
  }

  lemma OrderedInserted(t: Tables, r: Reservation, now: int)
    requires Ordered(t) && FreshFor(t, r)
    ensures Ordered(Inserted(t, r, now))
  {
    var t' := Inserted(t, r, now);
    assert forall id :: id in t'.order <==> id in t.order || id == r.runId;
    assert forall i :: 0 <= i < |t.order| ==> t.order[i] in t.order;
  }

  lemma KeysInserted(t: Tables, r: Reservation, now: int)
    requires KeysConsistent(t) && FreshFor(t, r)
    ensures KeysConsistent(Inserted(t, r, now))
  {
  }

  lemma SettlementsInserted(t: Tables, r: Reservation, now: int)
    requires Settlements(t) && Ordered(t) && FreshFor(t, r)
    ensures Settlements(Inserted(t, r, now))
  {
  }

  lemma InvInserted(t: Tables, r: Reservation, now: int)
    requires Inv(t) && FreshFor(t, r)
    ensures Inv(Inserted(t, r, now))
  {
    hide Ordered, KeysConsistent, Settlements, Inserted;
    OrderedInserted(t, r, now);
    KeysInserted(t, r, now);
    SettlementsInserted(t, r, now);
  }

  lemma InvReserve(t: Tables, r: Reservation, now: int, midnight: int, commit: Commit)
    requires Inv(t)
    ensures Inv(AfterReserve(t, r, now, midnight, commit).0)
  {
    hide QuotaVerdict, Inserted, Inv;
    if AfterReserve(t, r, now, midnight, commit).0 != t {
      InvInserted(t, r, now);
    }
  }

  predicate SameIdentity(a: Run, b: Run) {
    a.clientId == b.clientId && a.deploymentId == b.deploymentId && a.fingerprint == b.fingerprint
    && a.createdAt == b.createdAt
  }

  /** Rewriting rows without touching identities keeps keys and order consistent. */
  lemma IdentitiesKept(t: Tables, t': Tables)
    requires KeysConsistent(t) && Ordered(t)
    requires t'.order == t.order && t'.keys == t.keys
    requires forall id :: id in t.runs <==> id in t'.runs
    requires forall id :: id in t.runs ==> SameIdentity(t'.runs[id], t.runs[id])
    requires forall id :: id in t'.usage || id in t'.charges ==> id in t.runs
    ensures KeysConsistent(t') && Ordered(t')
  {
    hide Settlements;
  }

  lemma SettlementsSettled(t: Tables, c: Completion, now: int)
    requires Settlements(t) && c.runId in t.runs
    ensures Settlements(Settled(t, c, now))
  {
  }

  lemma InvSettled(t: Tables, c: Completion, now: int)
    requires Inv(t) && Completable(t, c)
    ensures Inv(Settled(t, c, now))
  {
    SettlementsSettled(t, c, now);
    IdentitiesKept(t, Settled(t, c, now)) by {
      hide Settlements, KeysConsistent;
    }
    hide KeysConsistent, Ordered, Settlements;
  }

  /** Moving an open run to a state other than completed. */
  lemma SettlementsRewrite(t: Tables, id: Name, row: Run)
    requires Settlements(t) && id in t.runs && IsOpen(t.runs[id])
    requires LegalPair(row) && !row.status.Completed?
    requires row.response == t.runs[id].response && row.billing == t.runs[id].billing
    ensures Settlements(t.(runs := t.runs[id := row]))
  {
  }

  lemma InvRewrite(t: Tables, id: Name, row: Run)
    requires Inv(t) && id in t.runs && IsOpen(t.runs[id])
    requires SameIdentity(row, t.runs[id]) && LegalPair(row) && !row.status.Completed?
    requires row.response == t.runs[id].response && row.billing == t.runs[id].billing
    ensures Inv(t.(runs := t.runs[id := row]))
  {
    SettlementsRewrite(t, id, row);
    IdentitiesKept(t, t.(runs := t.runs[id := row])) by {
      hide Settlements, KeysConsistent;
    }
    hide KeysConsistent, Ordered, Settlements;
  }

  lemma InvUpdate(t: Tables, id: Name, status: Status, settlement: Settlement, code: Option<string>, now: int,
                  commit: Commit)
    requires Inv(t)
    requires (status.Running? && settlement.Pending?)
          || (status.Failed? && !settlement.Pending? && !settlement.Confirmed?)
    ensures Inv(AfterUpdateState(t, id, status, settlement, code, now, commit).0)
  {
    hide Inv;
    if AfterUpdateState(t, id, status, settlement, code, now, commit).0 != t {
      InvRewrite(t, id, t.runs[id].(status := status, settlement := settlement, errorCode := code, updatedAt := now));
    }
  }

  lemma SettlementsRecover(t: Tables, now: int)
    requires Settlements(t)
    ensures Settlements(Recover(t, now))
  {
  }

  lemma InvRecover(t: Tables, now: int)
    requires Inv(t)
    ensures Inv(Recover(t, now))
  {
    SettlementsRecover(t, now);
    IdentitiesKept(t, Recover(t, now)) by {
      hide Settlements, KeysConsistent;
    }
    hide KeysConsistent, Ordered, Settlements;
  }

  lemma InvReset(t: Tables, client: Name, at: int, commit: Commit)
    requires Inv(t)
    ensures Inv(AfterReset(t, client, at, commit).0)
  {
    hide Trim;
  }

  /** Every operation keeps the tables consistent, however its commit ends. */
  lemma InvStep(t: Tables, op: Op)
    requires Inv(t)
    ensures Inv(Apply(t, op))
  {
    hide AfterReserve, AfterUpdateState, Recover, Inv, Settled;
    match op
    case DoReserve(r, now, midnight, commit) => InvReserve(t, r, now, midnight, commit);
    case DoMarkRunning(id, now, commit) => InvUpdate(t, id, Running, Pending, None, now, commit);
    case DoMarkFailed(id, settlement, code, now, commit) =>
      if !settlement.Pending? && !settlement.Confirmed? {
        InvUpdate(t, id, Failed, settlement, if code == "" then None else Some(code), now, commit);
      }
    case DoComplete(c, now, commit) =>
      if Completable(t, c) {
        InvSettled(t, c, now);
      }
    case DoRecover(now) => InvRecover(t, now);
    case DoReset(client, at, commit) => InvReset(t, client, at, commit);
  }

  /** After any run of operations on a new database, whatever commits were lost. */
  lemma {:induction false} InvAlways(ops: seq<Op>)
    ensures Inv(ApplyAll(EMPTY, ops))
  {
    if ops != [] {
      InvAlways(ops[..|ops| - 1]);
      InvStep(ApplyAll(EMPTY, ops[..|ops| - 1]), ops[|ops| - 1]);
    }
  }

  /** Rows disappear never, and identity columns never change. */
  ghost predicate Extends(before: Tables, after: Tables) {
    && before.order <= after.order
    && (forall id :: id in before.runs ==>
          && id in after.runs
          && after.runs[id].clientId == before.runs[id].clientId
          && after.runs[id].deploymentId == before.runs[id].deploymentId
          && after.runs[id].fingerprint == before.runs[id].fingerprint
          && after.runs[id].createdAt == before.runs[id].createdAt
          && (!IsOpen(before.runs[id]) ==> after.runs[id] == before.runs[id]))
    && (forall id :: id in before.usage ==> id in after.usage && after.usage[id] == before.usage[id])
    && (forall id :: id in before.charges ==> id in after.charges && after.charges[id] == before.charges[id])
    && (forall k :: k in before.keys ==> k in after.keys && after.keys[k] == before.keys[k])
    && CostsExtend(before, after)
    && before.resets.Keys <= after.resets.Keys
  }

  /** Cost rows are only added, and never to a finished run. */
  ghost predicate CostsExtend(before: Tables, after: Tables) {
    && before.costs <= after.costs
    && forall i :: |before.costs| <= i < |after.costs| ==> !Finished(before, after.costs[i].runId)
  }

  predicate Finished(t: Tables, id: Name) {
    id in t.runs && !IsOpen(t.runs[id])
  }

  lemma ExtendsInserted(t: Tables, r: Reservation, now: int)
    requires FreshFor(t, r)
    ensures Extends(t, Inserted(t, r, now))
  {
  }

  lemma ExtendsSettled(t: Tables, c: Completion, now: int)
    requires Completable(t, c)
    ensures Extends(t, Settled(t, c, now))
  {
  }

  lemma ExtendsRewrite(t: Tables, id: Name, row: Run)
    requires id in t.runs && IsOpen(t.runs[id]) && SameIdentity(row, t.runs[id])
    ensures Extends(t, t.(runs := t.runs[id := row]))
  {
  }

  lemma ExtendsUpdate(t: Tables, id: Name, status: Status, settlement: Settlement, code: Option<string>, now: int,
                      commit: Commit)
    ensures Extends(t, AfterUpdateState(t, id, status, settlement, code, now, commit).0)
  {
    hide Extends;
    ExtendsItself(t);
    if AfterUpdateState(t, id, status, settlement, code, now, commit).0 != t {
      ExtendsRewrite(t, id, t.runs[id].(status := status, settlement := settlement, errorCode := code,
                                        updatedAt := now));
    }
  }

  lemma ExtendsReserve(t: Tables, r: Reservation, now: int, midnight: int, commit: Commit)
    ensures Extends(t, AfterReserve(t, r, now, midnight, commit).0)
  {
    hide QuotaVerdict, Lookup, Extends, Inserted;
    ExtendsItself(t);
    if FreshFor(t, r) {
      ExtendsInserted(t, r, now);
    }
  }

  lemma ExtendsRecover(t: Tables, now: int)
    ensures Extends(t, Recover(t, now))
  {
  }

  lemma ExtendsStep(t: Tables, op: Op)
    ensures Extends(t, Apply(t, op))
  {
    hide AfterReserve, AfterUpdateState, Recover, Extends, Settled;
    ExtendsItself(t);
    match op
    case DoReserve(r, now, midnight, commit) => ExtendsReserve(t, r, now, midnight, commit);
    case DoMarkRunning(id, now, commit) => ExtendsUpdate(t, id, Running, Pending, None, now, commit);
    case DoMarkFailed(id, settlement, code, now, commit) =>
      ExtendsUpdate(t, id, Failed, settlement, if code == "" then None else Some(code), now, commit);
    case DoComplete(c, now, commit) =>
      if Completable(t, c) {
        ExtendsSettled(t, c, now);
      }
    case DoRecover(now) => ExtendsRecover(t, now);
    case DoReset(client, at, commit) => ExtendsReset(t, client, at, commit);
  }

  lemma ExtendsReset(t: Tables, client: Name, at: int, commit: Commit)
    ensures Extends(t, AfterReset(t, client, at, commit).0)
  {
    hide Trim;
  }

  lemma ExtendsTransitive(a: Tables, b: Tables, c: Tables)
    requires Extends(a, b) && Extends(b, c)
    ensures Extends(a, c)
  {
  }

  /**
    Completed and failed are final and a charge is made once: whatever operations follow, the row, the usage,
    the charge and the key of a run stay what they were.
  */
  lemma {:induction false} FinalStatesAbsorb(t: Tables, ops: seq<Op>)
    ensures Extends(t, ApplyAll(t, ops))
  {
    hide Extends, Apply;
    if ops != [] {
      var before := ApplyAll(t, ops[..|ops| - 1]);
      FinalStatesAbsorb(t, ops[..|ops| - 1]);
      ExtendsStep(before, ops[|ops| - 1]);
      ExtendsTransitive(t, before, ApplyAll(t, ops));
    } else {
      ExtendsItself(t);
    }
  }

  lemma ExtendsItself(t: Tables)
    ensures Extends(t, t)
  {
  }
}
