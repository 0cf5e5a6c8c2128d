/**
  Many requests over one database. Every step is one atomic action of one request, a lost commit, a request that
  vanishes, or a reopening of the database; steps of different requests interleave freely.
*/
module Lifecycle {
  import opened Names
  import opened Wrappers
  import opened RunStore
  import Gateway

  /** A call of a provider adapter's Start. */
  datatype Start = Start(client: Name, key: Name, fingerprint: Name, runId: Name)

  /** A run.completed event given to a client, by the run itself or by a repeated key. */
  datatype Report = Report(runId: Name, response: Gateway.Response, billing: Gateway.Billing, direct: bool)

  datatype Phase =
    | Admitted(request: Gateway.Request)
    | Launched
    | Aborting(settlement: Settlement, code: string)
    | Relaying(stage: Gateway.Stage)

  /** The request a run was reserved for, and what it was checked against. */
  datatype Admission = Admission(catalog: Gateway.Catalog, request: Gateway.Request)

  datatype System = System(db: Tables, phases: map<Name, Phase>, starts: seq<Start>, reports: seq<Report>,
                           admissions: map<Name, Admission>)

  /** A request comes with the catalog of the runtime snapshot it arrived at. */
  datatype Op =
    | Ask(catalog: Gateway.Catalog, request: Gateway.Request, runId: Name, now: int, midnight: int, commit: Commit)
    | CallAdapter(runId: Name, ok: bool)
    | SetRunning(runId: Name, now: int, commit: Commit)
    | Abort(runId: Name, now: int, commit: Commit)
    | Act(runId: Name, action: Gateway.Action, now: int, commit: Commit)
    | Vanish(runId: Name)
    | Reopen(now: int)
    | Reset(client: Name, at: int, commit: Commit)

  function ReservationOf(r: Gateway.Request, runId: Name, deploymentId: Name, midnight: int): Reservation {
    Reservation(runId, r.client, deploymentId, r.key, r.fingerprint, r.dailyLimit, Some(midnight))
  }

  /** A request reserves its run under its own key and limit, for the day it arrives in. */
  lemma ReservationExactly(r: Gateway.Request, runId: Name, deploymentId: Name, midnight: int)
    ensures var reservation := ReservationOf(r, runId, deploymentId, midnight);
            && reservation.runId == runId && reservation.deploymentId == deploymentId
            && reservation.clientId == r.client && reservation.key == r.key && reservation.fingerprint == r.fingerprint
            && reservation.dailyLimit == r.dailyLimit && reservation.dayStart == Some(midnight)
  {
  }

  predicate Enabled(codec: Gateway.Codec, s: System, op: Op) {
    match op
    case Ask(_, _, _, _, _, _) => true
    case CallAdapter(id, _) => id in s.phases && s.phases[id].Admitted?
    case SetRunning(id, _, _) => id in s.phases && s.phases[id].Launched?
    case Abort(id, _, _) => id in s.phases && s.phases[id].Aborting?
    case Act(id, action, now, commit) =>
      && id in s.phases && s.phases[id].Relaying?
      && Gateway.Next(codec, true, id, s.phases[id].stage, action).Some?
      && (action.CompleteRun? ==>
            && action.ok == AfterComplete(s.db, action.completion, now, commit).1
            && Gateway.Honest(codec, action.completion))
    case Vanish(id) => id in s.phases
    case Reopen(_) => true
    case Reset(_, _, _) => true
  }

  /** Requests, resets and reopenings can come at any time, and a request can vanish at any point. */
  lemma AlwaysPossible(codec: Gateway.Codec, s: System, op: Op)
    ensures op.Ask? || op.Reopen? || op.Reset? ==> Enabled(codec, s, op)
    ensures op.Vanish? && op.runId in s.phases ==> Enabled(codec, s, op)
    ensures op.CallAdapter? && op.runId in s.phases && s.phases[op.runId].Admitted? ==> Enabled(codec, s, op)
    ensures op.SetRunning? && op.runId in s.phases && s.phases[op.runId].Launched? ==> Enabled(codec, s, op)
    ensures op.Abort? && op.runId in s.phases && s.phases[op.runId].Aborting? ==> Enabled(codec, s, op)
  {
    hide Gateway.Next;
  }

  function AfterAction(db: Tables, id: Name, action: Gateway.Action, now: int, commit: Commit): Tables {
    match action
    case CompleteRun(c, _) => AfterComplete(db, c, now, commit).0
    case FailRun(settlement, code) => AfterMarkFailed(db, id, settlement, code, now, commit).0
    case Send(_) => db
  }

  /** An admitted request reserves its run, or is answered from the table. */
  function Reserving(codec: Gateway.Codec, s: System, r: Gateway.Request, id: Name, deploymentId: Name, now: int,
                     midnight: int, commit: Commit): System
  {
    var (db, result) := AfterReserve(s.db, ReservationOf(r, id, deploymentId, midnight), now, midnight, commit);
    match Gateway.Decide(codec, result, r.fingerprint)
    case Proceed => s.(db := db, phases := s.phases[id := Admitted(r)])
    case Replay(runId, response, billing) =>
      s.(db := db, reports := s.reports + [Report(runId, response, billing, false)])
    case Refuse(_) => s.(db := db)
  }

  function Asked(codec: Gateway.Codec, s: System, catalog: Gateway.Catalog, r: Gateway.Request, id: Name, now: int,
                 midnight: int, commit: Commit): System
  {
    if r.model !in catalog.deployments || Gateway.AdmitRequest(catalog, r).Err? then s
    else
      var s' := Reserving(codec, s, r, id, catalog.deployments[r.model].id, now, midnight, commit);
      if id in s'.db.runs && id !in s.db.runs then s'.(admissions := s.admissions[id := Admission(catalog, r)]) else s'
  }

  function Step(codec: Gateway.Codec, s: System, op: Op): System
    requires Enabled(codec, s, op)
  {
    match op
    case Ask(catalog, r, id, now, midnight, commit) => Asked(codec, s, catalog, r, id, now, midnight, commit)
    case CallAdapter(id, ok) =>
      var r := s.phases[id].request;
      s.(starts := s.starts + [Start(r.client, r.key, r.fingerprint, id)],
         phases := s.phases[id := if ok then Launched else Aborting(Unconfirmed, "provider_start_failed")])
    case SetRunning(id, now, commit) =>
      var (db, ok) := AfterMarkRunning(s.db, id, now, commit);
      s.(db := db,
         phases := s.phases[id := if ok then Relaying(Gateway.Streaming)
                                  else Aborting(SettlementFailed, "persistence_failed")])
    case Abort(id, now, commit) =>
      s.(db := AfterMarkFailed(s.db, id, s.phases[id].settlement, s.phases[id].code, now, commit).0,
         phases := s.phases - {id})
    case Act(id, action, now, commit) =>
      s.(db := AfterAction(s.db, id, action, now, commit),
         phases := s.phases[id := Relaying(Gateway.Next(codec, true, id, s.phases[id].stage, action).value)],
         reports := if action.Send? && action.event.RunCompleted?
                    then s.reports + [Report(id, action.event.response, action.event.billing, true)] else s.reports)
    case Vanish(id) => s.(phases := s.phases - {id})
    case Reopen(now) => s.(db := Recover(s.db, now))
    case Reset(client, at, commit) => s.(db := AfterReset(s.db, client, at, commit).0)
  }

  const NEW := System(EMPTY, map[], [], [], map[])

  predicate Runs(codec: Gateway.Codec, ops: seq<Op>)
    decreases |ops|, 0
  {
    ops == [] || (Runs(codec, ops[..|ops| - 1])
                  && Enabled(codec, After(codec, ops[..|ops| - 1]), ops[|ops| - 1]))
  }

  function After(codec: Gateway.Codec, ops: seq<Op>): System
    requires Runs(codec, ops)
    decreases |ops|, 1
  {
    if ops == [] then NEW else Step(codec, After(codec, ops[..|ops| - 1]), ops[|ops| - 1])
  }

  // ------------------------------------------------ the invariant

  /** A key, when there is one, belongs to this run and this request. */
  predicate Owns(db: Tables, client: Name, key: Name, fingerprint: Name, id: Name) {
    key.Blank() || ((client, key) in db.keys && db.keys[(client, key)] == KeyRow(id, fingerprint))
  }

  predicate HoldsCompletion(db: Tables, c: Completion) {
    && c.runId in db.runs && db.runs[c.runId].status.Completed?
    && db.runs[c.runId].response == Some(c.response) && db.runs[c.runId].billing == Some(c.billing)
    && c.runId in db.charges && db.charges[c.runId].totalCharge == c.totalCharge
  }

  predicate StageOk(codec: Gateway.Codec, db: Tables, id: Name, stage: Gateway.Stage) {
    match stage
    case Persisted(c) => c.runId == id && HoldsCompletion(db, c)
    case Billed(c, b) =>
      && c.Some? && c.value.runId == id
      && HoldsCompletion(db, c.value) && Gateway.Matches(codec, c.value, None, b)
    case _ => true
  }

  predicate PhaseOk(codec: Gateway.Codec, db: Tables, id: Name, phase: Phase) {
    && id in db.runs
    && match phase
       case Admitted(r) => Owns(db, r.client, r.key, r.fingerprint, id)
       case Relaying(stage) => StageOk(codec, db, id, stage)
       case _ => true
  }

  predicate StartOk(db: Tables, start: Start) {
    start.runId in db.runs && Owns(db, start.client, start.key, start.fingerprint, start.runId)
  }

  predicate ReportOk(codec: Gateway.Codec, db: Tables, report: Report) {
    && report.runId in db.runs && db.runs[report.runId].status.Completed?
    && db.runs[report.runId].response.Some? && db.runs[report.runId].billing.Some?
    && codec.readResponse(db.runs[report.runId].response.value) == Some(report.response)
    && codec.readBilling(db.runs[report.runId].billing.value) == Some(report.billing)
    && (report.direct ==>
          && report.runId in db.charges
          && db.charges[report.runId].totalCharge == report.billing.totalCharge)
  }

  ghost predicate PhasesOk(codec: Gateway.Codec, s: System) {
    forall id :: id in s.phases ==> PhaseOk(codec, s.db, id, s.phases[id])
  }

  /** No run is started twice, and a run that waits for its adapter was not started yet. */
  ghost predicate StartsOk(s: System) {
    && (forall i :: 0 <= i < |s.starts| ==> StartOk(s.db, s.starts[i]))
    && (forall i, j :: 0 <= i < j < |s.starts| ==> s.starts[i].runId != s.starts[j].runId)
    && (forall i :: 0 <= i < |s.starts| && s.starts[i].runId in s.phases ==> !s.phases[s.starts[i].runId].Admitted?)
  }

  ghost predicate ReportsOk(codec: Gateway.Codec, s: System) {
    forall i :: 0 <= i < |s.reports| ==> ReportOk(codec, s.db, s.reports[i])
  }

  /** The bill on record says what is booked for its run. */
  predicate BillOk(codec: Gateway.Codec, db: Tables, id: Name) {
    id in db.runs && db.runs[id].status.Completed? ==>
      && db.runs[id].billing.Some? && id in db.usage && id in db.charges
      && codec.readBilling(db.runs[id].billing.value).Some?
      && var b := codec.readBilling(db.runs[id].billing.value).value;
         && db.charges[id].totalCharge == b.totalCharge
         && db.usage[id].inputTokens == b.inputTokens && db.usage[id].outputTokens == b.outputTokens
  }

  ghost predicate BillsOk(codec: Gateway.Codec, db: Tables) {
    forall id :: id in db.runs ==> BillOk(codec, db, id)
  }

  ghost predicate SystemInv(codec: Gateway.Codec, s: System) {
    Inv(s.db) && PhasesOk(codec, s) && StartsOk(s) && ReportsOk(codec, s) && BillsOk(codec, s.db)
  }

  /** What completes a run says the same in its text and in its columns. */
  predicate HonestOp(codec: Gateway.Codec, op: RunStore.Op) {
    op.DoComplete? ==> Gateway.Honest(codec, op.c)
  }

  lemma BillKept(codec: Gateway.Codec, db: Tables, op: RunStore.Op, id: Name)
    requires Inv(db) && BillsOk(codec, db) && HonestOp(codec, op) && id in Apply(db, op).runs
    ensures BillOk(codec, Apply(db, op), id)
  {
    hide Inv, Extends, Apply, HonestOp;
    if Apply(db, op).runs[id].status.Completed? {
      CompletedBefore(db, op, id);
      if id in db.runs && db.runs[id].status.Completed? {
        BillStays(codec, db, op, id);
      } else {
        BillBooked(codec, db, op);
      }
    }
  }

  lemma BillStays(codec: Gateway.Codec, db: Tables, op: RunStore.Op, id: Name)
    requires BillOk(codec, db, id) && id in db.runs && db.runs[id].status.Completed?
    ensures BillOk(codec, Apply(db, op), id)
  {
    ExtendsStep(db, op);
    hide Apply;
  }

  lemma BillBooked(codec: Gateway.Codec, db: Tables, op: RunStore.Op)
    requires op.DoComplete? && HonestOp(codec, op) && op.c.runId in Apply(db, op).runs
    requires Apply(db, op).runs[op.c.runId].status.Completed?
    requires !(op.c.runId in db.runs && db.runs[op.c.runId].status.Completed?)
    ensures BillOk(codec, Apply(db, op), op.c.runId)
  {
    CompleteBooks(db, op.c, op.now, op.commit);
    hide AfterComplete;
  }

  /** A run is completed by its completion only. */
  lemma CompletedBefore(db: Tables, op: RunStore.Op, id: Name)
    requires id in Apply(db, op).runs && Apply(db, op).runs[id].status.Completed?
    ensures (id in db.runs && db.runs[id].status.Completed?) || (op.DoComplete? && id == op.c.runId)
  {
    hide QuotaVerdict, Lookup;
  }

  lemma BillsKept(codec: Gateway.Codec, db: Tables, op: RunStore.Op)
    requires Inv(db) && BillsOk(codec, db) && HonestOp(codec, op)
    ensures BillsOk(codec, Apply(db, op))
  {
    hide Inv, BillOk, HonestOp;
    forall id | id in Apply(db, op).runs
      ensures BillOk(codec, Apply(db, op), id)
    {
      BillKept(codec, db, op, id);
    }
  }

  // What was true of a run stays true when the tables are extended.

  lemma PhaseKept(codec: Gateway.Codec, db: Tables, db': Tables, id: Name, phase: Phase)
    requires Extends(db, db') && PhaseOk(codec, db, id, phase)
    ensures PhaseOk(codec, db', id, phase)
  {
    hide Gateway.Matches;
  }

  lemma StartKept(db: Tables, db': Tables, start: Start)
    requires Extends(db, db') && StartOk(db, start)
    ensures StartOk(db', start)
  {
  }

  lemma ReportKept(codec: Gateway.Codec, db: Tables, db': Tables, report: Report)
    requires Extends(db, db') && ReportOk(codec, db, report)
    ensures ReportOk(codec, db', report)
  {
  }

  lemma AllKept(codec: Gateway.Codec, s: System, db': Tables)
    requires SystemInv(codec, s) && Extends(s.db, db') && Inv(db') && BillsOk(codec, db')
    ensures SystemInv(codec, s.(db := db'))
  {
    hide Inv, Extends, PhaseOk, StartOk, ReportOk, BillsOk;
    forall id | id in s.phases
      ensures PhaseOk(codec, db', id, s.phases[id])
    {
      PhaseKept(codec, s.db, db', id, s.phases[id]);
    }
    forall i | 0 <= i < |s.starts|
      ensures StartOk(db', s.starts[i])
    {
      StartKept(s.db, db', s.starts[i]);
    }
    forall i | 0 <= i < |s.reports|
      ensures ReportOk(codec, db', s.reports[i])
    {
      ReportKept(codec, s.db, db', s.reports[i]);
    }
  }

  /** Moving one request to another phase. */
  lemma PhaseMoved(codec: Gateway.Codec, s: System, id: Name, phase: Phase)
    requires SystemInv(codec, s) && PhaseOk(codec, s.db, id, phase)
    requires phase.Admitted? ==> forall i :: 0 <= i < |s.starts| ==> s.starts[i].runId != id
    ensures SystemInv(codec, s.(phases := s.phases[id := phase]))
  {
    hide Inv, PhaseOk, StartOk, ReportOk, BillsOk;
  }

  lemma Reported(codec: Gateway.Codec, s: System, report: Report)
    requires SystemInv(codec, s) && ReportOk(codec, s.db, report)
    ensures SystemInv(codec, s.(reports := s.reports + [report]))
  {
    hide Inv, PhaseOk, StartOk, ReportOk, BillsOk;
  }

  lemma Gone(codec: Gateway.Codec, s: System, id: Name)
    requires SystemInv(codec, s)
    ensures SystemInv(codec, s.(phases := s.phases - {id}))
  {
    hide Inv, PhaseOk, StartOk, ReportOk, BillsOk;
  }

  lemma StepAsk(codec: Gateway.Codec, s: System, catalog: Gateway.Catalog, r: Gateway.Request, id: Name, now: int,
                midnight: int, commit: Commit)
    requires SystemInv(codec, s)
    ensures SystemInv(codec, Asked(codec, s, catalog, r, id, now, midnight, commit))
  {
    hide Reserving, SystemInv, Gateway.AdmitRequest;
    if r.model in catalog.deployments {
      StepReserve(codec, s, r, id, catalog.deployments[r.model].id, now, midnight, commit);
      AdmissionsAside(codec, Reserving(codec, s, r, id, catalog.deployments[r.model].id, now, midnight, commit),
                      s.admissions[id := Admission(catalog, r)]);
    }
  }

  lemma AdmissionsAside(codec: Gateway.Codec, s: System, admissions: map<Name, Admission>)
    requires SystemInv(codec, s)
    ensures SystemInv(codec, s.(admissions := admissions))
  {
    hide Inv, PhaseOk, StartOk, ReportOk, BillsOk;
  }

  lemma StepReserve(codec: Gateway.Codec, s: System, r: Gateway.Request, id: Name, deploymentId: Name, now: int,
                    midnight: int, commit: Commit)
    requires SystemInv(codec, s)
    ensures SystemInv(codec, Reserving(codec, s, r, id, deploymentId, now, midnight, commit))
  {
    var reservation := ReservationOf(r, id, deploymentId, midnight);
    var (db, result) := AfterReserve(s.db, reservation, now, midnight, commit);
    InvStep(s.db, DoReserve(reservation, now, midnight, commit));
    ExtendsStep(s.db, DoReserve(reservation, now, midnight, commit));
    BillsKept(codec, s.db, DoReserve(reservation, now, midnight, commit));
    AllKept(codec, s, db);
    hide SystemInv, Inv, Extends;
    match Gateway.Decide(codec, result, r.fingerprint)
    case Proceed =>
      ProceedOwns(codec, s.db, r, id, deploymentId, now, midnight, commit);
      NotStarted(codec, s, id);
      PhaseMoved(codec, s.(db := db), id, Admitted(r));
    case Replay(runId, response, billing) =>
      ReplayOk(codec, s.db, r, id, deploymentId, now, midnight, commit);
      Reported(codec, s.(db := db), Report(runId, response, billing, false));
    case Refuse(_) =>
  }

  lemma ProceedOwns(codec: Gateway.Codec, db: Tables, r: Gateway.Request, id: Name, deploymentId: Name, now: int,
                    midnight: int, commit: Commit)
    requires Gateway.Decide(codec, AfterReserve(db, ReservationOf(r, id, deploymentId, midnight), now, midnight,
                                                commit).1, r.fingerprint).Proceed?
    ensures id !in db.runs
    ensures PhaseOk(codec, AfterReserve(db, ReservationOf(r, id, deploymentId, midnight), now, midnight, commit).0, id,
                    Admitted(r))
  {
    hide QuotaVerdict;
  }

  lemma NotStarted(codec: Gateway.Codec, s: System, id: Name)
    requires SystemInv(codec, s) && id !in s.db.runs
    ensures forall i :: 0 <= i < |s.starts| ==> s.starts[i].runId != id
  {
    hide Inv, PhasesOk, ReportsOk;
  }

  lemma ReplayOk(codec: Gateway.Codec, db: Tables, r: Gateway.Request, id: Name, deploymentId: Name, now: int,
                 midnight: int, commit: Commit)
    requires var (_, result) := AfterReserve(db, ReservationOf(r, id, deploymentId, midnight), now, midnight, commit);
             Gateway.Decide(codec, result, r.fingerprint).Replay?
    ensures var (db', result) := AfterReserve(db, ReservationOf(r, id, deploymentId, midnight), now, midnight, commit);
            var d := Gateway.Decide(codec, result, r.fingerprint);
            db' == db && ReportOk(codec, db, Report(d.runId, d.response, d.billing, false))
  {
    hide QuotaVerdict, Inserted;
  }

  lemma StepCall(codec: Gateway.Codec, s: System, id: Name, ok: bool)
    requires SystemInv(codec, s) && Enabled(codec, s, CallAdapter(id, ok))
    ensures SystemInv(codec, Step(codec, s, CallAdapter(id, ok)))
  {
    hide Inv, ReportOk;
    var s' := Step(codec, s, CallAdapter(id, ok));
    assert PhaseOk(codec, s.db, id, s.phases[id]);
    assert PhaseOk(codec, s.db, id, s'.phases[id]);
    assert StartOk(s.db, s'.starts[|s.starts|]);
  }

  lemma DbStep(codec: Gateway.Codec, s: System, op: RunStore.Op)
    requires SystemInv(codec, s) && HonestOp(codec, op)
    ensures SystemInv(codec, s.(db := Apply(s.db, op)))
  {
    BillsKept(codec, s.db, op);
    InvStep(s.db, op);
    ExtendsStep(s.db, op);
    AllKept(codec, s, Apply(s.db, op));
  }

  lemma StepSetRunning(codec: Gateway.Codec, s: System, id: Name, now: int, commit: Commit)
    requires SystemInv(codec, s) && Enabled(codec, s, SetRunning(id, now, commit))
    ensures SystemInv(codec, Step(codec, s, SetRunning(id, now, commit)))
  {
    var (db, ok) := AfterMarkRunning(s.db, id, now, commit);
    DbStep(codec, s, DoMarkRunning(id, now, commit));
    assert PhaseOk(codec, s.db, id, s.phases[id]);
    PhaseMoved(codec, s.(db := db), id, Step(codec, s, SetRunning(id, now, commit)).phases[id]);
  }

  lemma PhaseIn(codec: Gateway.Codec, s: System, id: Name)
    requires SystemInv(codec, s) && id in s.phases
    ensures PhaseOk(codec, s.db, id, s.phases[id]) && id in s.db.runs
  {
  }

  lemma StepComplete(codec: Gateway.Codec, s: System, id: Name, c: Completion, ok: bool, now: int, commit: Commit)
    requires SystemInv(codec, s) && Enabled(codec, s, Act(id, Gateway.CompleteRun(c, ok), now, commit))
    ensures SystemInv(codec, Step(codec, s, Act(id, Gateway.CompleteRun(c, ok), now, commit)))
  {
    hide SystemInv, PhaseOk, AfterComplete, Gateway.Next;
    PhaseIn(codec, s, id);
    var stage := Gateway.Next(codec, true, id, s.phases[id].stage, Gateway.CompleteRun(c, ok)).value;
    DbStep(codec, s, DoComplete(c, now, commit));
    CompletedStage(codec, s, id, c, ok, now, commit);
    PhaseMoved(codec, s.(db := AfterComplete(s.db, c, now, commit).0), id, Relaying(stage));
  }

  lemma StepFail(codec: Gateway.Codec, s: System, id: Name, settlement: Settlement, code: string, now: int,
                 commit: Commit)
    requires SystemInv(codec, s) && Enabled(codec, s, Act(id, Gateway.FailRun(settlement, code), now, commit))
    ensures SystemInv(codec, Step(codec, s, Act(id, Gateway.FailRun(settlement, code), now, commit)))
  {
    hide SystemInv, AfterMarkFailed;
    PhaseIn(codec, s, id);
    var action := Gateway.FailRun(settlement, code);
    assert Gateway.Next(codec, true, id, s.phases[id].stage, action) == Some(Gateway.Failing);
    hide Gateway.Next;
    DbStep(codec, s, DoMarkFailed(id, settlement, code, now, commit));
    RunRemains(s.db, DoMarkFailed(id, settlement, code, now, commit), id);
    PhaseMoved(codec, s.(db := AfterMarkFailed(s.db, id, settlement, code, now, commit).0), id,
               Relaying(Gateway.Failing));
  }

  lemma StepSend(codec: Gateway.Codec, s: System, id: Name, event: Gateway.Event, now: int, commit: Commit)
    requires Gateway.Faithful(codec)
    requires SystemInv(codec, s) && Enabled(codec, s, Act(id, Gateway.Send(event), now, commit))
    ensures SystemInv(codec, Step(codec, s, Act(id, Gateway.Send(event), now, commit)))
  {
    hide SystemInv, PhaseOk, ReportOk, Gateway.Next;
    PhaseIn(codec, s, id);
    var stage := Gateway.Next(codec, true, id, s.phases[id].stage, Gateway.Send(event)).value;
    SentStage(codec, s.db, id, s.phases[id].stage, event);
    PhaseMoved(codec, s, id, Relaying(stage));
    if event.RunCompleted? {
      Reported(codec, s.(phases := s.phases[id := Relaying(stage)]), Report(id, event.response, event.billing, true));
    }
  }

  lemma StepAct(codec: Gateway.Codec, s: System, id: Name, action: Gateway.Action, now: int, commit: Commit)
    requires Gateway.Faithful(codec)
    requires SystemInv(codec, s) && Enabled(codec, s, Act(id, action, now, commit))
    ensures SystemInv(codec, Step(codec, s, Act(id, action, now, commit)))
  {
    hide SystemInv, Step, Enabled, Gateway.Faithful;
    match action
    case CompleteRun(c, ok) => StepComplete(codec, s, id, c, ok, now, commit);
    case FailRun(settlement, code) => StepFail(codec, s, id, settlement, code, now, commit);
    case Send(event) => StepSend(codec, s, id, event, now, commit);
  }

  lemma RunRemains(db: Tables, op: RunStore.Op, id: Name)
    requires id in db.runs
    ensures id in Apply(db, op).runs
  {
    ExtendsStep(db, op);
    hide Apply;
  }

  lemma CompletedStage(codec: Gateway.Codec, s: System, id: Name, c: Completion, ok: bool, now: int, commit: Commit)
    requires id in s.phases && s.phases[id].Relaying? && id in s.db.runs
    requires Gateway.Next(codec, true, id, s.phases[id].stage, Gateway.CompleteRun(c, ok)).Some?
    requires ok == AfterComplete(s.db, c, now, commit).1
    ensures PhaseOk(codec, AfterComplete(s.db, c, now, commit).0, id,
                    Relaying(Gateway.Next(codec, true, id, s.phases[id].stage, Gateway.CompleteRun(c, ok)).value))
  {
    hide Gateway.Matches;
  }

  lemma SentStage(codec: Gateway.Codec, db: Tables, id: Name, stage: Gateway.Stage, event: Gateway.Event)
    requires Gateway.Faithful(codec)
    requires PhaseOk(codec, db, id, Relaying(stage))
    requires Gateway.Next(codec, true, id, stage, Gateway.Send(event)).Some?
    ensures PhaseOk(codec, db, id, Relaying(Gateway.Next(codec, true, id, stage, Gateway.Send(event)).value))
    ensures event.RunCompleted? ==> ReportOk(codec, db, Report(id, event.response, event.billing, true))
  {
  }

  /** Every step of every interleaving keeps the invariant. */
  lemma SystemStep(codec: Gateway.Codec, s: System, op: Op)
    requires Gateway.Faithful(codec) && SystemInv(codec, s) && Enabled(codec, s, op)
    ensures SystemInv(codec, Step(codec, s, op))
  {
    hide SystemInv, AfterReserve;
    match op
    case Ask(catalog, r, id, now, midnight, commit) => StepAsk(codec, s, catalog, r, id, now, midnight, commit);
    case CallAdapter(id, ok) => StepCall(codec, s, id, ok);
    case SetRunning(id, now, commit) => StepSetRunning(codec, s, id, now, commit);
    case Abort(id, now, commit) =>
      DbStep(codec, s, DoMarkFailed(id, s.phases[id].settlement, s.phases[id].code, now, commit));
      Gone(codec, s.(db := AfterMarkFailed(s.db, id, s.phases[id].settlement, s.phases[id].code, now, commit).0), id);
    case Act(id, action, now, commit) => StepAct(codec, s, id, action, now, commit);
    case Vanish(id) => Gone(codec, s, id);
    case Reopen(now) => DbStep(codec, s, DoRecover(now));
    case Reset(client, at, commit) => DbStep(codec, s, DoReset(client, at, commit));
  }

  lemma {:induction false} SystemAlways(codec: Gateway.Codec, ops: seq<Op>)
    requires Gateway.Faithful(codec) && Runs(codec, ops)
    ensures SystemInv(codec, After(codec, ops))
  {
    if ops != [] {
      SystemAlways(codec, ops[..|ops| - 1]);
      SystemStep(codec, After(codec, ops[..|ops| - 1]), ops[|ops| - 1]);
    }
  }

  // ------------------------------------------------ the promises

  /**
    At-most-once execution. Over any interleaving of requests, failures, lost commits and reopenings, one key of
    one client starts a provider at most once, and the start carries the fingerprint the key was taken with.
  */
  lemma AtMostOnce(codec: Gateway.Codec, ops: seq<Op>)
    requires Gateway.Faithful(codec) && Runs(codec, ops)
    ensures var starts := After(codec, ops).starts;
            forall i, j :: 0 <= i < j < |starts| && !starts[i].key.Blank() ==>
              starts[i].client != starts[j].client || starts[i].key != starts[j].key
  {
    SystemAlways(codec, ops);
    hide After, Inv, PhasesOk, ReportsOk;
  }

  /**
    Everyone who is told of a completed run, at the time or by repeating its key, is told the same response and
    the same bill, and what the bill says is on record: its total as the charge, its counts as the usage.
  */
  lemma OneAnswerPerRun(codec: Gateway.Codec, ops: seq<Op>, i: nat, j: nat)
    requires Gateway.Faithful(codec) && Runs(codec, ops)
    requires i < |After(codec, ops).reports| && j < |After(codec, ops).reports|
    requires After(codec, ops).reports[i].runId == After(codec, ops).reports[j].runId
    ensures var s := After(codec, ops);
            var id, bill := s.reports[i].runId, s.reports[i].billing;
            && s.reports[i].response == s.reports[j].response && bill == s.reports[j].billing
            && id in s.db.runs && s.db.runs[id].status.Completed?
            && id in s.db.charges && s.db.charges[id].totalCharge == bill.totalCharge
            && id in s.db.usage && s.db.usage[id].inputTokens == bill.inputTokens
            && s.db.usage[id].outputTokens == bill.outputTokens
  {
    SystemAlways(codec, ops);
    hide After, Inv, PhasesOk, StartsOk;
    var s := After(codec, ops);
    assert BillOk(codec, s.db, s.reports[i].runId) && ReportOk(codec, s.db, s.reports[i]);
    assert ReportOk(codec, s.db, s.reports[j]);
  }

  /**
    A repeated key is answered from the table alone: the quota is not consulted and nothing is written. With the
    same fingerprint a confirmed run is replayed exactly as stored; in every other case, a refused admission and an
    error at the commit included, nothing is reported.
  */
  lemma RepeatedKey(codec: Gateway.Codec, s: System, catalog: Gateway.Catalog, r: Gateway.Request, id: Name, now: int,
                    midnight: int, commit: Commit)
    requires SystemInv(codec, s)
    requires !id.Blank() && !r.client.Blank() && !r.fingerprint.Blank() && !r.key.Blank()
    requires (r.client, r.key) in s.db.keys
    ensures var row := s.db.keys[(r.client, r.key)];
            && row.runId in s.db.runs
            && var run := s.db.runs[row.runId];
               var s' := Step(codec, s, Ask(catalog, r, id, now, midnight, commit));
               if commit.Stored? && row.fingerprint == r.fingerprint && run.status.Completed?
                  && codec.readResponse(run.response.value).Some? && codec.readBilling(run.billing.value).Some?
                  && Gateway.Admissible(catalog, r) && !catalog.deployments[r.model].id.Blank()
               then s' == s.(reports := s.reports + [Report(row.runId, codec.readResponse(run.response.value).value,
                                                            codec.readBilling(run.billing.value).value, false)])
               else s' == s
  {
    hide QuotaVerdict, Inserted, PhasesOk, StartsOk, ReportsOk, BillsOk, SystemInv, AfterReserve;
    hide Gateway.AdmitRequest, Gateway.Admissible;
    KeyOnRecord(codec, s, r.client, r.key);
    Gateway.AdmittedMeans(catalog, r);
    if Gateway.Admissible(catalog, r) {
      RepeatedReservation(codec, s, r, id, catalog.deployments[r.model].id, now, midnight, commit);
    }
    hide Reserving;
  }

  lemma KeyOnRecord(codec: Gateway.Codec, s: System, client: Name, key: Name)
    requires SystemInv(codec, s) && (client, key) in s.db.keys
    ensures s.db.keys[(client, key)].runId in s.db.runs
    ensures var run := s.db.runs[s.db.keys[(client, key)].runId];
            run.status.Completed? ==> run.settlement.Confirmed? && run.response.Some? && run.billing.Some?
  {
    hide PhasesOk, StartsOk, ReportsOk, BillsOk, Ordered;
  }

  lemma RepeatedReservation(codec: Gateway.Codec, s: System, r: Gateway.Request, id: Name, deploymentId: Name,
                            now: int, midnight: int, commit: Commit)
    requires SystemInv(codec, s)
    requires !id.Blank() && !r.client.Blank() && !r.fingerprint.Blank() && !r.key.Blank()
    requires (r.client, r.key) in s.db.keys && s.db.keys[(r.client, r.key)].runId in s.db.runs
    requires var run := s.db.runs[s.db.keys[(r.client, r.key)].runId];
             run.status.Completed? ==> run.settlement.Confirmed? && run.response.Some? && run.billing.Some?
    ensures var row := s.db.keys[(r.client, r.key)];
            var run := s.db.runs[row.runId];
            Reserving(codec, s, r, id, deploymentId, now, midnight, commit)
            == if commit.Stored? && row.fingerprint == r.fingerprint && run.status.Completed?
                  && codec.readResponse(run.response.value).Some? && codec.readBilling(run.billing.value).Some?
                  && !deploymentId.Blank()
               then s.(reports := s.reports + [Report(row.runId, codec.readResponse(run.response.value).value,
                                                      codec.readBilling(run.billing.value).value, false)])
               else s
  {
    hide QuotaVerdict, Inserted, PhasesOk, StartsOk, ReportsOk, BillsOk, SystemInv, AfterReserve;
    if deploymentId.Blank() {
      NamelessDeployment(s.db, r, id, deploymentId, now, midnight, commit);
    } else {
      KeyFound(codec, s, r, id, deploymentId, now, midnight, commit);
    }
  }

  lemma NamelessDeployment(db: Tables, r: Gateway.Request, id: Name, deploymentId: Name, now: int, midnight: int,
                           commit: Commit)
    requires deploymentId.Blank()
    ensures AfterReserve(db, ReservationOf(r, id, deploymentId, midnight), now, midnight, commit) == (db, ReserveFailed)
  {
  }

  /** A key on record is found before anything else is looked at. */
  lemma KeyFound(codec: Gateway.Codec, s: System, r: Gateway.Request, id: Name, deploymentId: Name, now: int,
                 midnight: int, commit: Commit)
    requires SystemInv(codec, s)
    requires !id.Blank() && !r.client.Blank() && !deploymentId.Blank() && !r.fingerprint.Blank() && !r.key.Blank()
    requires (r.client, r.key) in s.db.keys
    ensures var row := s.db.keys[(r.client, r.key)];
            && row.runId in s.db.runs
            && var run := s.db.runs[row.runId];
               && (run.status.Completed? ==> run.settlement.Confirmed? && run.response.Some? && run.billing.Some?)
               && AfterReserve(s.db, ReservationOf(r, id, deploymentId, midnight), now, midnight, commit)
                  == (s.db, if commit.Stored?
                            then Reserved(StoredRun(row.runId, run.status, run.settlement, row.fingerprint,
                                                    run.response, run.billing), false)
                            else ReserveFailed)
  {
    hide QuotaVerdict, Inserted, PhasesOk, StartsOk, ReportsOk, Ordered;
  }

  /** A provider that cannot be started leaves its run failed and unconfirmed, and the request is over. */
  lemma RefusedStartBooks(codec: Gateway.Codec, s: System, id: Name, now: int)
    requires Enabled(codec, s, CallAdapter(id, false)) && id in s.db.runs && IsOpen(s.db.runs[id])
    ensures var called := Step(codec, s, CallAdapter(id, false));
            && Enabled(codec, called, Abort(id, now, Stored))
            && var ended := Step(codec, called, Abort(id, now, Stored));
               && id !in ended.phases && |ended.starts| == |s.starts| + 1
               && BooksState(s.db, ended.db, id, Failed, Unconfirmed, Some("provider_start_failed"), now)
  {
    hide BooksState;
    StateBooks(s.db, id, Failed, Unconfirmed, Some("provider_start_failed"), now, Stored);
  }

  /** A run that cannot be marked running is marked failed instead. */
  lemma UnmarkedRunBooks(codec: Gateway.Codec, s: System, id: Name, before: int, now: int, commit: Commit)
    requires Enabled(codec, s, SetRunning(id, before, commit)) && id in s.db.runs && IsOpen(s.db.runs[id])
    requires !commit.Stored?
    ensures var marked := Step(codec, s, SetRunning(id, before, commit));
            && Enabled(codec, marked, Abort(id, now, Stored))
            && var ended := Step(codec, marked, Abort(id, now, Stored));
               && id !in ended.phases
               && BooksState(marked.db, ended.db, id, Failed, SettlementFailed, Some("persistence_failed"), now)
  {
    hide BooksState;
    var marked := Step(codec, s, SetRunning(id, before, commit));
    StateBooks(marked.db, id, Failed, SettlementFailed, Some("persistence_failed"), now, Stored);
  }

  // ------------------------------------------------ who may start what

  /** The run on record is that of an admitted request of its client. */
  predicate RunAdmitted(s: System, id: Name) {
    && id in s.db.runs && id in s.admissions
    && var a := s.admissions[id];
       && Gateway.Admissible(a.catalog, a.request)
       && s.db.runs[id].clientId == a.request.client && s.db.runs[id].fingerprint == a.request.fingerprint
       && s.db.runs[id].deploymentId == a.catalog.deployments[a.request.model].id
  }

  ghost predicate RunsAdmitted(s: System) {
    forall id :: id in s.db.runs ==> RunAdmitted(s, id)
  }

  /** A request that waits for its adapter is the one its run was reserved for. */
  predicate WaitsAdmitted(s: System, id: Name) {
    id in s.phases && s.phases[id].Admitted? ==>
      id in s.db.runs && id in s.admissions && s.phases[id].request == s.admissions[id].request
  }

  ghost predicate PhasesAdmitted(s: System) {
    forall id :: id in s.phases ==> WaitsAdmitted(s, id)
  }

  predicate StartAdmitted(s: System, start: Start) {
    && start.runId in s.db.runs && start.runId in s.admissions
    && var r := s.admissions[start.runId].request;
       start.client == r.client && start.key == r.key && start.fingerprint == r.fingerprint
  }

  ghost predicate StartsAdmitted(s: System) {
    forall i :: 0 <= i < |s.starts| ==> StartAdmitted(s, s.starts[i])
  }

  ghost predicate AllAdmitted(s: System) {
    RunsAdmitted(s) && PhasesAdmitted(s) && StartsAdmitted(s)
  }

  /** More runs and admissions, with those on record as they are. */
  ghost predicate Keeps(s: System, t: System) {
    && (forall id :: id in s.db.runs ==> id in t.db.runs && SameIdentity(t.db.runs[id], s.db.runs[id]))
    && (forall id :: id in s.admissions && id in s.db.runs ==>
          id in t.admissions && t.admissions[id] == s.admissions[id])
  }

  lemma RunKept(s: System, t: System, id: Name)
    requires RunAdmitted(s, id) && Keeps(s, t)
    ensures RunAdmitted(t, id)
  {
    hide Gateway.Admissible;
  }

  lemma WaitKept(s: System, t: System, id: Name)
    requires WaitsAdmitted(s, id) && Keeps(s, t)
    requires id in t.phases && t.phases[id].Admitted? ==> id in s.phases && t.phases[id] == s.phases[id]
    ensures WaitsAdmitted(t, id)
  {
  }

  lemma StartAdmittedKept(s: System, t: System, start: Start)
    requires StartAdmitted(s, start) && Keeps(s, t)
    ensures StartAdmitted(t, start)
  {
  }

  /** What was admitted stays so, whatever else is added. */
  lemma AdmittedGrows(s: System, t: System)
    requires AllAdmitted(s) && Keeps(s, t) && s.starts <= t.starts
    requires forall id :: id in t.db.runs && id !in s.db.runs ==> RunAdmitted(t, id)
    requires forall id :: id in t.phases && t.phases[id].Admitted? ==>
               (id in s.phases && t.phases[id] == s.phases[id]) || WaitsAdmitted(t, id)
    requires forall i :: |s.starts| <= i < |t.starts| ==> StartAdmitted(t, t.starts[i])
    ensures AllAdmitted(t)
  {
    hide RunAdmitted, StartAdmitted, Keeps;
    forall id | id in t.db.runs
      ensures RunAdmitted(t, id)
    {
      if id in s.db.runs {
        RunKept(s, t, id);
      }
    }
    forall id | id in t.phases
      ensures WaitsAdmitted(t, id)
    {
      if t.phases[id].Admitted? && !WaitsAdmitted(t, id) {
        WaitKept(s, t, id);
      }
    }
    forall i | 0 <= i < |t.starts|
      ensures StartAdmitted(t, t.starts[i])
    {
      if i < |s.starts| {
        StartAdmittedKept(s, t, s.starts[i]);
      }
    }
  }

  /** Operations other than reservations add no runs, and none changes whose a run is. */
  lemma RunsStay(db: Tables, op: RunStore.Op)
    requires !op.DoReserve?
    ensures Apply(db, op).runs.Keys == db.runs.Keys
    ensures forall id :: id in db.runs ==> SameIdentity(Apply(db, op).runs[id], db.runs[id])
  {
    ExtendsStep(db, op);
    hide Extends;
  }

  lemma AdmittedStays(s: System, op: RunStore.Op)
    requires AllAdmitted(s) && !op.DoReserve?
    ensures AllAdmitted(s.(db := Apply(s.db, op)))
  {
    hide Apply, RunAdmitted, StartAdmitted, AllAdmitted, SameIdentity;
    RunsStay(s.db, op);
    AdmittedGrows(s, s.(db := Apply(s.db, op)));
  }

  lemma AdmittedAsk(codec: Gateway.Codec, s: System, catalog: Gateway.Catalog, r: Gateway.Request, id: Name, now: int,
                    midnight: int, commit: Commit)
    requires AllAdmitted(s)
    ensures AllAdmitted(Asked(codec, s, catalog, r, id, now, midnight, commit))
  {
    hide Gateway.AdmitRequest, Gateway.Admissible, AllAdmitted, Reserving;
    Gateway.AdmittedMeans(catalog, r);
    if Gateway.Admissible(catalog, r) {
      assert r.model in catalog.deployments by {
        DeploymentKnown(catalog, r);
      }
      var deploymentId := catalog.deployments[r.model].id;
      ReservingFacts(codec, s, r, id, deploymentId, now, midnight, commit);
      OnlyNewRun(s.db, ReservationOf(r, id, deploymentId, midnight), now, midnight, commit);
      AdmittedMore(s, Asked(codec, s, catalog, r, id, now, midnight, commit), catalog, r, id);
    }
  }

  lemma DeploymentKnown(catalog: Gateway.Catalog, r: Gateway.Request)
    requires Gateway.Admissible(catalog, r)
    ensures r.model in catalog.deployments
  {
  }

  /** Adding the run of an admitted request. */
  lemma AdmittedMore(s: System, t: System, catalog: Gateway.Catalog, r: Gateway.Request, id: Name)
    requires AllAdmitted(s) && Gateway.Admissible(catalog, r) && t.starts == s.starts
    requires forall other :: other in s.db.runs ==> other in t.db.runs && t.db.runs[other] == s.db.runs[other]
    requires forall other :: other in t.db.runs && other !in s.db.runs ==>
               && other == id && t.db.runs[other].clientId == r.client && t.db.runs[other].fingerprint == r.fingerprint
               && t.db.runs[other].deploymentId == catalog.deployments[r.model].id
    requires t.admissions == if id in t.db.runs && id !in s.db.runs then s.admissions[id := Admission(catalog, r)]
                             else s.admissions
    requires t.phases == s.phases || (id in t.db.runs && id !in s.db.runs && t.phases == s.phases[id := Admitted(r)])
    ensures AllAdmitted(t)
  {
    hide Gateway.Admissible, AllAdmitted;
    AdmittedGrows(s, t);
  }

  lemma ReservingFacts(codec: Gateway.Codec, s: System, r: Gateway.Request, id: Name, deploymentId: Name, now: int,
                       midnight: int, commit: Commit)
    ensures var t := Reserving(codec, s, r, id, deploymentId, now, midnight, commit);
            var (db, result) := AfterReserve(s.db, ReservationOf(r, id, deploymentId, midnight), now, midnight, commit);
            && t.db == db && t.starts == s.starts && t.admissions == s.admissions
            && t.phases == if result.Reserved? && result.created then s.phases[id := Admitted(r)] else s.phases
  {
    hide AfterReserve, Gateway.Decide;
    ProceedsWhenCreated(codec, s.db, r, id, deploymentId, now, midnight, commit);
  }

  lemma ProceedsWhenCreated(codec: Gateway.Codec, db: Tables, r: Gateway.Request, id: Name, deploymentId: Name,
                            now: int, midnight: int, commit: Commit)
    ensures var (_, result) := AfterReserve(db, ReservationOf(r, id, deploymentId, midnight), now, midnight, commit);
            Gateway.Decide(codec, result, r.fingerprint).Proceed? <==> result.Reserved? && result.created
  {
    hide AfterReserve;
  }

  /** A reservation adds at most its own run, for its own client. */
  lemma OnlyNewRun(db: Tables, r: Reservation, now: int, midnight: int, commit: Commit)
    ensures var (db', result) := AfterReserve(db, r, now, midnight, commit);
            && (forall other :: other in db.runs ==> other in db'.runs && db'.runs[other] == db.runs[other])
            && (forall other :: other in db'.runs && other !in db.runs ==>
                  && other == r.runId && db'.runs[other].clientId == r.clientId
                  && db'.runs[other].deploymentId == r.deploymentId && db'.runs[other].fingerprint == r.fingerprint)
            && (result.Reserved? && result.created ==> r.runId in db'.runs && r.runId !in db.runs)
  {
    hide AfterReserve, WithinQuota;
    ReserveBooks(db, r, now, midnight, commit);
  }

  lemma AdmittedStep(codec: Gateway.Codec, s: System, op: Op)
    requires AllAdmitted(s) && Enabled(codec, s, op)
    ensures AllAdmitted(Step(codec, s, op))
  {
    hide RunAdmitted, Gateway.Next, Apply, AfterComplete, AfterMarkFailed, AfterMarkRunning;
    match op
    case Ask(catalog, r, id, now, midnight, commit) => AdmittedAsk(codec, s, catalog, r, id, now, midnight, commit);
    case CallAdapter(id, ok) =>
      assert WaitsAdmitted(s, id);
      AdmittedAside(s, Step(codec, s, op));
    case SetRunning(id, now, commit) =>
      SameAsApply(s.db, DoMarkRunning(id, now, commit));
      AdmittedStays(s, DoMarkRunning(id, now, commit));
      AdmittedAside(s.(db := AfterMarkRunning(s.db, id, now, commit).0), Step(codec, s, op));
    case Abort(id, now, commit) =>
      SameAsApply(s.db, DoMarkFailed(id, s.phases[id].settlement, s.phases[id].code, now, commit));
      AdmittedStays(s, DoMarkFailed(id, s.phases[id].settlement, s.phases[id].code, now, commit));
      AdmittedAside(s.(db := AfterMarkFailed(s.db, id, s.phases[id].settlement, s.phases[id].code, now, commit).0),
                    Step(codec, s, op));
    case Act(id, action, now, commit) => AdmittedAct(codec, s, id, action, now, commit);
    case Vanish(id) => AdmittedAside(s, Step(codec, s, op));
    case Reopen(now) =>
      SameAsApply(s.db, DoRecover(now));
      AdmittedStays(s, DoRecover(now));
    case Reset(client, at, commit) =>
      SameAsApply(s.db, DoReset(client, at, commit));
      AdmittedStays(s, DoReset(client, at, commit));
  }

  lemma SameAsApply(db: Tables, op: RunStore.Op)
    ensures op.DoMarkRunning? ==> Apply(db, op) == AfterMarkRunning(db, op.id, op.now, op.commit).0
    ensures op.DoMarkFailed? ==>
              Apply(db, op) == AfterMarkFailed(db, op.id, op.settlement, op.code, op.now, op.commit).0
    ensures op.DoComplete? ==> Apply(db, op) == AfterComplete(db, op.c, op.now, op.commit).0
    ensures op.DoRecover? ==> Apply(db, op) == Recover(db, op.now)
    ensures op.DoReset? ==> Apply(db, op) == AfterReset(db, op.client, op.at, op.commit).0
  {
    hide AfterMarkRunning, AfterMarkFailed, AfterComplete, Recover, AfterReset;
  }

  /** A step that leaves the tables and the admissions alone, and starts at most what was admitted. */
  lemma AdmittedAside(s: System, t: System)
    requires AllAdmitted(s) && t.db == s.db && t.admissions == s.admissions && s.starts <= t.starts
    requires forall id :: id in t.phases && t.phases[id].Admitted? ==> id in s.phases && t.phases[id] == s.phases[id]
    requires forall i :: |s.starts| <= i < |t.starts| ==> StartAdmitted(t, t.starts[i])
    ensures AllAdmitted(t)
  {
    hide AllAdmitted, RunAdmitted, StartAdmitted, WaitsAdmitted;
    AdmittedGrows(s, t);
  }

  lemma AdmittedAct(codec: Gateway.Codec, s: System, id: Name, action: Gateway.Action, now: int, commit: Commit)
    requires AllAdmitted(s) && Enabled(codec, s, Act(id, action, now, commit))
    ensures AllAdmitted(Step(codec, s, Act(id, action, now, commit)))
  {
    hide RunAdmitted, Gateway.Next, Apply, AfterComplete, AfterMarkFailed;
    match action {
      case CompleteRun(c, ok) =>
        SameAsApply(s.db, DoComplete(c, now, commit));
        AdmittedStays(s, DoComplete(c, now, commit));
      case FailRun(settlement, code) =>
        SameAsApply(s.db, DoMarkFailed(id, settlement, code, now, commit));
        AdmittedStays(s, DoMarkFailed(id, settlement, code, now, commit));
      case Send(_) =>
    }
    hide AllAdmitted;
    AdmittedAside(s.(db := AfterAction(s.db, id, action, now, commit)), Step(codec, s, Act(id, action, now, commit)));
  }

  lemma {:induction false} AdmittedAlways(codec: Gateway.Codec, ops: seq<Op>)
    requires Runs(codec, ops)
    ensures AllAdmitted(After(codec, ops))
  {
    if ops != [] {
      AdmittedAlways(codec, ops[..|ops| - 1]);
      AdmittedStep(codec, After(codec, ops[..|ops| - 1]), ops[|ops| - 1]);
    }
  }

  /**
    Nothing is reserved or started that its client was not allowed to ask for: over any interleaving, every run on
    record and every start of a provider belongs to a request whose deployment exists, is enabled, is among those of the
    client, knows the effort and the functions asked for, and could cost no more than a hard budget.
  */
  lemma OnlyAllowedRuns(codec: Gateway.Codec, ops: seq<Op>)
    requires Runs(codec, ops)
    ensures var s := After(codec, ops);
            && (forall id :: id in s.db.runs ==>
                  && id in s.admissions
                  && var catalog, r := s.admissions[id].catalog, s.admissions[id].request;
                     && r.model in catalog.deployments
                     && var d := catalog.deployments[r.model];
                        && d.enabled && r.client in catalog.allowed && d.id in catalog.allowed[r.client]
                        && (r.effort == "" || d.efforts == {} || r.effort in d.efforts)
                        && (r.toolsEnabled ==> d.nativeTools)
                        && Gateway.BudgetInOrder(catalog.isCjk, d, r)
                        && s.db.runs[id].clientId == r.client && s.db.runs[id].deploymentId == d.id)
            && (forall i :: 0 <= i < |s.starts| ==>
                  && s.starts[i].runId in s.db.runs && s.starts[i].runId in s.admissions
                  && s.starts[i].client == s.admissions[s.starts[i].runId].request.client
                  && s.starts[i].fingerprint == s.admissions[s.starts[i].runId].request.fingerprint)
  {
    AdmittedAlways(codec, ops);
    hide After, Gateway.BudgetInOrder;
    var s := After(codec, ops);
    assert forall id :: id in s.db.runs ==> RunAdmitted(s, id);
    assert forall i :: 0 <= i < |s.starts| ==> StartAdmitted(s, s.starts[i]);
  }
}
