/**
 A whole batch: from a ledger whose live cases are exactly the freshly detected batch, a
 completed run leaves no live case without a next action, a human owner or a logged
 decision, and nothing the simulator does afterwards changes that.
 */
module BatchRuns {
  import opened Wrappers
  import opened Vocabulary
  import opened Actions
  import opened Cases
  import opened Parties
  import opened PolicyRules
  import opened ShippedPolicy
  import opened AuditChain
  import opened Spine
  import opened Flow
  import opened FlowSafety
  import opened Outcomes
  import opened InvariantChecks
  import opened Runs
  import D = Diagnosis
  import Outbox

  // ------------------------------------------------------------ counting open rows

  lemma OpenCountGrows(q: Outbox.Queue, r: Outbox.OutboxRow, id: CaseId)
    ensures OpenCount(q + [r], id) == OpenCount(q, id) + (if r.status.IsOpen() && r.caseId == id then 1 else 0)
  {
    assert (q + [r])[..|q|] == q;
  }

  lemma {:induction false} NoActionNoOpenRow(q: Outbox.Queue, id: CaseId)
    requires HasNoAction(q, id)
    ensures OpenCount(q, id) == 0
  {
    if q != [] {
      assert q[|q| - 1].caseId != id;
      NoActionNoOpenRow(q[..|q| - 1], id);
    }
  }

  lemma DecisionsStay(a: seq<AuditRow>, b: seq<AuditRow>, id: CaseId)
    requires a <= b && Decided(a, id)
    ensures Decided(b, id)
  {
    var i :| 0 <= i < |a| && IsNoActionDecision(a[i]) && a[i].body.caseId == Some(id);
    assert b[i] == a[i];
  }

  // ------------------------------------------------------------ progress through a batch

  predicate InBatch(batch: seq<RiskCase>, id: CaseId) {
    exists i :: 0 <= i < |batch| && batch[i].caseId == id
  }

  predicate DistinctCases(batch: seq<RiskCase>) {
    forall i, j :: 0 <= i < j < |batch| ==> batch[i].caseId != batch[j].caseId
  }

  /** The live cases are exactly the batch, all just detected, and nothing is queued. */
  ghost predicate FreshBatch(env: Env, db: DB, batch: seq<RiskCase>) {
    && Good(env, db) && db.outbox == [] && DistinctCases(batch)
    && (forall i :: 0 <= i < |batch| ==>
          batch[i].caseId in db.cases && db.cases[batch[i].caseId] == batch[i] && batch[i].state == Detected)
    && (forall id :: id in db.cases && db.cases[id].IsLive() ==> InBatch(batch, id))
  }

  /** A ledger with nothing live and nothing queued starts an empty batch. */
  lemma EmptyBatchIsFresh(env: Env, db: DB)
    requires Good(env, db) && db.outbox == [] && forall id :: id in db.cases ==> !db.cases[id].IsLive()
    ensures FreshBatch(env, db, [])
  {
  }

  lemma OpeningExtendsTheBatch(env: Env, db: DB, batch: seq<RiskCase>, c: RiskCase, actor: ActorType, at: Instant)
    requires FreshBatch(env, db, batch) && OpenCase(env, db, c, actor, at).Success?
    ensures FreshBatch(env, OpenCase(env, db, c, actor, at).value, batch + [c])
  {
    hide GoodOwing, GoodLedger, Log;
    OpenKeepsGood(env, db, c, actor, at);
    assert c.state == Detected;
    var db' := OpenCase(env, db, c, actor, at).value;
    hide OpenCase;
    forall i | 0 <= i < |batch| ensures batch[i].caseId != c.caseId {
      assert batch[i].caseId in db.cases;
    }
    forall id | id in db'.cases && db'.cases[id].IsLive() ensures InBatch(batch + [c], id) {
      InBatchGrows(batch, c, id);
    }
  }

  /** Ingest and detection: nothing is processed or moved yet. */
  predicate IsIntake(op: Op) {
    op.Upsert? || op.Open?
  }

  /** The cases a run managed to open, in order. */
  function OpenedBy(env: Env, ops: seq<Op>): seq<RiskCase> {
    if ops == [] then []
    else
      var before, op := ops[..|ops| - 1], ops[|ops| - 1];
      OpenedBy(env, before)
      + (if op.Open? && Attempt(env, After(env, before), op).Success? then [op.opening] else [])
  }

  lemma UpsertKeepsTheBatch(env: Env, db: DB, batch: seq<RiskCase>, o: Obligation)
    requires FreshBatch(env, db, batch) && UpsertObligation(db, o).Success?
    ensures FreshBatch(env, UpsertObligation(db, o).value, batch)
  {
    hide GoodOwing;
    UpsertKeepsGood(env, db, o);
  }

  /** Detection builds fresh batches: after any run of ingest and openings from the empty
      ledger, refused ones included, the cases it opened are a fresh batch. */
  lemma {:induction false} IntakeBuildsAFreshBatch(env: Env, ops: seq<Op>)
    requires forall i :: 0 <= i < |ops| ==> IsIntake(ops[i])
    ensures FreshBatch(env, After(env, ops), OpenedBy(env, ops))
  {
    hide FreshBatch, OpenCase, UpsertObligation;
    if ops == [] {
      EmptyDbIsGood(env);
      EmptyBatchIsFresh(env, EMPTY_DB);
    } else {
      var before, op := ops[..|ops| - 1], ops[|ops| - 1];
      assert IsIntake(op);
      IntakeBuildsAFreshBatch(env, before);
      var db, batch := After(env, before), OpenedBy(env, before);
      if Attempt(env, db, op).Success? {
        match op
        case Upsert(o) =>
          UpsertKeepsTheBatch(env, db, batch, o);
          assert batch + [] == batch;
        case Open(c, actor, at) => OpeningExtendsTheBatch(env, db, batch, c, actor, at);
      } else {
        assert batch + [] == batch;
      }
    }
  }

  predicate Untouched(start: DB, db: DB, done: seq<RiskCase>) {
    forall id :: id in start.cases && !InBatch(done, id) ==> id in db.cases && db.cases[id] == start.cases[id]
  }

  /** Every queued row is still waiting, belongs to a processed case, and debits its own obligation. */
  predicate QueueOfDone(db: DB, done: seq<RiskCase>) {
    forall i :: 0 <= i < |db.outbox| ==> RowOfDone(db, done, db.outbox[i])
  }

  predicate RowOfDone(db: DB, done: seq<RiskCase>, r: Outbox.OutboxRow) {
    && r.status == Outbox.Pending && InBatch(done, r.caseId) && r.caseId in db.cases
    && (r.coordinates.Some? ==> r.coordinates.value.0 == db.cases[r.caseId].obligationId)
  }

  predicate Handled(db: DB, id: CaseId) {
    id in db.cases && (db.cases[id].IsLive() ==> LookedAfter(db, id))
  }

  predicate AllHandled(db: DB, done: seq<RiskCase>) {
    forall i :: 0 <= i < |done| ==> Handled(db, done[i].caseId)
  }

  ghost predicate Progress(env: Env, start: DB, db: DB, done: seq<RiskCase>) {
    && Good(env, db) && Evolves(start, db) && Untouched(start, db, done)
    && QueueOfDone(db, done) && AllHandled(db, done)
  }

  lemma StartOfProgress(env: Env, start: DB, batch: seq<RiskCase>)
    requires FreshBatch(env, start, batch)
    ensures Progress(env, start, start, [])
  {
  }

  lemma InBatchGrows(done: seq<RiskCase>, c: RiskCase, id: CaseId)
    ensures InBatch(done + [c], id) <==> InBatch(done, id) || id == c.caseId
  {
    var more := done + [c];
    if InBatch(done, id) {
      var i :| 0 <= i < |done| && done[i].caseId == id;
      assert more[i].caseId == id;
    }
    assert more[|done|] == c;
  }

  /** A step on one case, seen from the others: their state, their rows and the decisions
      about them are what they were. */
  lemma OthersStayHandled(db: DB, db': DB, id: CaseId, k: CaseId)
    requires Touches(db, db', id) && k != id && Handled(db, k)
    requires OpenCount(db'.outbox, k) == OpenCount(db.outbox, k)
    ensures Handled(db', k)
  {
    if Decided(db.audit, k) {
      DecisionsStay(db.audit, db'.audit, k);
    }
  }

  // ------------------------------------------------------------ one case of the batch

  /** The case got its one action, or got none and is over, with a human, or decided on. */
  predicate CaseDone(db: DB, db': DB, id: CaseId) {
    && id in db.cases && id in db'.cases
    && if db'.outbox == db.outbox then
         !db'.cases[id].IsLive() || HumanOwned(db'.cases[id].state) || Decided(db'.audit, id)
       else
         && |db'.outbox| == |db.outbox| + 1 && db.outbox <= db'.outbox
         && NewRowOf(db, db'.outbox[|db.outbox|], id)
  }

  predicate NewRowOf(db: DB, r: Outbox.OutboxRow, id: CaseId)
    requires id in db.cases
  {
    && r.status == Outbox.Pending && r.caseId == id
    && (r.coordinates.Some? ==> r.coordinates.value.0 == db.cases[id].obligationId)
  }

  lemma ProposedRow(env: Env, db: DB, t: Thresholds, c: RiskCase, o: Obligation, d: D.Diagnosis, at: Instant, e: Envelope)
    requires Proposal(env.world, t, c, o, d, at) == Some(e)
    requires c.caseId in db.cases && db.cases[c.caseId].obligationId == c.obligationId
    ensures NewRowOf(db, Outbox.NewRow(env.world.digest, db.outbox, e), c.caseId)
  {
  }

  lemma RoutedFinishesTheCase(env: Env, tr: Thresholds, t: Thresholds, db: DB, c: RiskCase, at: Instant)
    requires Good(env, db) && Routed(env, Shipped(tr), t, db, c, at).Success?
    ensures CaseDone(db, Routed(env, Shipped(tr), t, db, c, at).value.0, c.caseId)
  {
    hide Routed, GoodOwing, Proposal, ContextFor, Ruling, D.Diagnose, NewRowOf, Outbox.NewRow;
    RoutedKeepsGood(env, tr, t, db, c, at);
    CaseKnowsItsId(env, db, c.caseId);
    var current, o := db.cases[c.caseId].(state := Diagnosing), db.obligations[c.obligationId];
    var p := Proposal(env.world, t, current, o, D.Diagnose(c), at);
    if p.Some? {
      ProposedRow(env, db, t, current, o, D.Diagnose(c), at, p.value);
    }
  }

  lemma LeavingAloneDecides(env: Env, db: DB, c: RiskCase, at: Instant)
    requires Good(env, db) && LeaveAlone(env, db, c, at).Success? && c.caseId in db.cases
    ensures CaseDone(db, LeaveAlone(env, db, c, at).value.0, c.caseId)
  {
    hide GoodOwing;
    LeaveAloneKeepsGood(env, db, c, at);
    var event := if ArmSpecOf(c.arm).takesAnyAction then ArmNotRouted else ControlArmNoAction;
    LogRecords(env, db, Note(at, c.caseId, System, event, ArmInputs(c.caseId, c.arm)));
    var db' := LeaveAlone(env, db, c, at).value.0;
    assert IsNoActionDecision(db'.audit[|db.audit|]) && db'.audit[|db.audit|].body.caseId == Some(c.caseId);
  }

  lemma LogRecords(env: Env, db: DB, body: Body)
    requires Log(env, db, body).Success?
    ensures var audit := Log(env, db, body).value.audit; |audit| == |db.audit| + 1 && audit[|db.audit|].body == body
  {
  }

  lemma ProcessFinishesTheCase(env: Env, tr: Thresholds, t: Thresholds, db: DB, c: RiskCase)
    requires Good(env, db) && ProcessCase(env, Shipped(tr), t, db, c).Success? && c.caseId in db.cases
    ensures CaseDone(db, ProcessCase(env, Shipped(tr), t, db, c).value.0, c.caseId)
  {
    hide Routed, LeaveAlone, GoodOwing, CaseDone;
    if IsRoutingArm(c.arm) {
      RoutedFinishesTheCase(env, tr, t, db, c, c.detectedAt + PLANNING_LATENCY);
    } else {
      LeavingAloneDecides(env, db, c, c.detectedAt + PLANNING_LATENCY);
    }
  }

  // ------------------------------------------------------------ one more case

  lemma DoneCaseIsHandled(db: DB, db': DB, id: CaseId)
    requires CaseDone(db, db', id) && HasNoAction(db.outbox, id)
    ensures Handled(db', id)
  {
    NoActionNoOpenRow(db.outbox, id);
    if db'.outbox != db.outbox {
      var r := db'.outbox[|db.outbox|];
      assert db'.outbox == db.outbox + [r];
      OpenCountGrows(db.outbox, r, id);
    }
  }

  lemma OthersKeepTheirRows(db: DB, db': DB, id: CaseId, k: CaseId)
    requires CaseDone(db, db', id) && k != id
    ensures OpenCount(db'.outbox, k) == OpenCount(db.outbox, k)
  {
    if db'.outbox != db.outbox {
      var r := db'.outbox[|db.outbox|];
      assert db'.outbox == db.outbox + [r];
      OpenCountGrows(db.outbox, r, k);
    }
  }

  lemma RowsStayOfDone(db: DB, db': DB, done: seq<RiskCase>, c: RiskCase)
    requires QueueOfDone(db, done) && Touches(db, db', c.caseId) && CaseDone(db, db', c.caseId)
    ensures QueueOfDone(db', done + [c])
  {
    forall i | 0 <= i < |db'.outbox| ensures RowOfDone(db', done + [c], db'.outbox[i]) {
      InBatchGrows(done, c, db'.outbox[i].caseId);
      if i < |db.outbox| {
        assert RowOfDone(db, done, db.outbox[i]) && db'.outbox[i] == db.outbox[i];
        assert SameCase(db.cases[db.outbox[i].caseId], db'.cases[db.outbox[i].caseId]);
      } else {
        assert SameCase(db.cases[c.caseId], db'.cases[c.caseId]);
      }
    }
  }

  lemma NotDoneHasNoAction(db: DB, done: seq<RiskCase>, id: CaseId)
    requires QueueOfDone(db, done) && !InBatch(done, id)
    ensures HasNoAction(db.outbox, id)
  {
    forall i | 0 <= i < |db.outbox| ensures db.outbox[i].caseId != id {
      assert RowOfDone(db, done, db.outbox[i]);
    }
  }

  lemma AllStayHandled(db: DB, db': DB, done: seq<RiskCase>, c: RiskCase)
    requires QueueOfDone(db, done) && AllHandled(db, done) && !InBatch(done, c.caseId)
    requires Touches(db, db', c.caseId) && CaseDone(db, db', c.caseId)
    ensures AllHandled(db', done + [c])
  {
    hide CaseDone, Handled, Touches;
    NotDoneHasNoAction(db, done, c.caseId);
    DoneCaseIsHandled(db, db', c.caseId);
    forall i | 0 <= i < |done| ensures Handled(db', done[i].caseId) {
      OthersKeepTheirRows(db, db', c.caseId, done[i].caseId);
      OthersStayHandled(db, db', c.caseId, done[i].caseId);
    }
  }

  lemma StillUntouched(start: DB, db: DB, db': DB, done: seq<RiskCase>, c: RiskCase)
    requires Untouched(start, db, done) && Touches(db, db', c.caseId)
    ensures Untouched(start, db', done + [c])
  {
    forall id | id in start.cases && !InBatch(done + [c], id) ensures id in db'.cases && db'.cases[id] == start.cases[id] {
      InBatchGrows(done, c, id);
    }
  }

  lemma OneMoreProcessed(env: Env, tr: Thresholds, t: Thresholds, start: DB, db: DB, done: seq<RiskCase>, c: RiskCase)
    requires Progress(env, start, db, done) && !InBatch(done, c.caseId) && c.caseId in start.cases
    requires ProcessCase(env, Shipped(tr), t, db, c).Success?
    ensures Progress(env, start, ProcessCase(env, Shipped(tr), t, db, c).value.0, done + [c])
  {
    hide ProcessCase, GoodOwing, CaseDone, Touches, Evolves, QueueOfDone, AllHandled;
    ProcessIsKept(env, tr, t, db, c);
    ProcessFinishesTheCase(env, tr, t, db, c);
    var db' := ProcessCase(env, Shipped(tr), t, db, c).value.0;
    StillUntouched(start, db, db', done, c);
    TouchingEvolves(start, db, db', c.caseId);
    RowsStayOfDone(db, db', done, c);
    AllStayHandled(db, db', done, c);
  }

  /** Through a fresh batch, in the order given. */
  lemma {:induction false} RunMakesProgress(env: Env, tr: Thresholds, t: Thresholds, start: DB, batch: seq<RiskCase>, done: seq<RiskCase>)
    requires FreshBatch(env, start, batch) && done <= batch
    requires Run(env, Shipped(tr), t, start, done).Success?
    ensures Progress(env, start, Run(env, Shipped(tr), t, start, done).value.0, done)
    decreases |done|
  {
    hide ProcessCase, Progress, GoodOwing;
    if done == [] {
      StartOfProgress(env, start, batch);
    } else {
      var before, c := done[..|done| - 1], done[|done| - 1];
      assert done == before + [c] && batch[|before|] == c;
      RunMakesProgress(env, tr, t, start, batch, before);
      assert !InBatch(before, c.caseId);
      OneMoreProcessed(env, tr, t, start, Run(env, Shipped(tr), t, start, before).value.0, before, c);
    }
  }

  /** After a completed run over a fresh batch every live case is looked after, so check
      #9 is never violated; and the ledger is good, so neither are #1 and #8. */
  lemma RunLooksAfterEveryCase(env: Env, tr: Thresholds, t: Thresholds, start: DB, batch: seq<RiskCase>)
    requires FreshBatch(env, start, batch)
    requires Run(env, Shipped(tr), t, start, batch).Success?
    ensures var db := Run(env, Shipped(tr), t, start, batch).value.0;
            Good(env, db) && forall id :: id in OpenCases(db) ==> HasANextStep(db, id)
  {
    hide Run, GoodOwing, LookedAfter, HasANextStep;
    RunMakesProgress(env, tr, t, start, batch, batch);
    var db := Run(env, Shipped(tr), t, start, batch).value.0;
    forall id | id in OpenCases(db) ensures HasANextStep(db, id) {
      LookedAfterExactly(db, id);
      assert id in start.cases;
      assert InBatch(batch, id);
      var i :| 0 <= i < |batch| && batch[i].caseId == id;
      assert Handled(db, batch[i].caseId);
    }
  }

  /** Checker #9 itself, after ingest and detection from the empty ledger and one completed
      run over every case that was opened. */
  method CheckFinishedRun(env: Env, tr: Thresholds, t: Thresholds, intake: seq<Op>) returns (r: InvariantResult)
    requires forall i :: 0 <= i < |intake| ==> IsIntake(intake[i])
    requires Run(env, Shipped(tr), t, After(env, intake), OpenedBy(env, intake)).Success?
    ensures r.status != Violated && r.offendingCaseIds == {}
  {
    hide Run, After, OpenedBy, HasANextStep, GoodOwing;
    IntakeBuildsAFreshBatch(env, intake);
    RunLooksAfterEveryCase(env, tr, t, After(env, intake), OpenedBy(env, intake));
    r := CheckNoOrphanedLiveCase(Run(env, Shipped(tr), t, After(env, intake), OpenedBy(env, intake)).value.0);
  }

  // ------------------------------------------------------------ and after the simulator

  ghost predicate AllLookedAfter(db: DB) {
    forall id :: id in LiveIds(db) ==> LookedAfter(db, id)
  }

  /** A case without a queued action that a human owns is only ever moved to its end. */
  lemma HumanOwnedEndsOrStays(db: DB, c: RiskCase, verb: Option<ActionType>, money: bool)
    requires HumanOwned(c.state) && LaneFor(db, c) != NotSimulated
    ensures var to := Destination(c.state, StepsFor(LaneFor(db, c), c, verb, money, c.recoveryWindowEndsAt));
            to == c.state || to.IsTerminal()
  {
    hide AlreadyResolved;
  }

  lemma ResolvedCaseStaysLookedAfter(env: Env, db: DB, id: CaseId, money: bool)
    requires Good(env, db) && ResolveCase(env, db, id, money).Success? && id in db.cases
    requires db.cases[id].IsLive() ==> LookedAfter(db, id)
    ensures var db' := ResolveCase(env, db, id, money).value.0;
            id in db'.cases && (db'.cases[id].IsLive() ==> LookedAfter(db', id))
  {
    hide GoodOwing, ResolveCase, StepsFor, AlreadyResolved;
    ResolveIsNeverIllegal(env, db, id, money);
    var (db', o) := ResolveCase(env, db, id, money).value;
    if db'.cases[id].IsLive() {
      if Decided(db.audit, id) {
        DecisionsStay(db.audit, db'.audit, id);
      }
      if HumanOwned(db.cases[id].state) && o.WasSimulated() {
        HumanOwnedEndsOrStays(db, db.cases[id], o.actionType, money);
      }
    }
  }

  lemma ResolveKeepsLookedAfter(env: Env, db: DB, id: CaseId, money: bool)
    requires Good(env, db) && ResolveCase(env, db, id, money).Success? && id in db.cases
    requires AllLookedAfter(db)
    ensures AllLookedAfter(ResolveCase(env, db, id, money).value.0)
  {
    hide GoodOwing, ResolveCase, LaneFor, StepsFor, LookedAfter;
    ResolvedCaseStaysLookedAfter(env, db, id, money);
    ResolveIsNeverIllegal(env, db, id, money);
    var db' := ResolveCase(env, db, id, money).value.0;
    forall k | k in LiveIds(db') ensures LookedAfter(db', k) {
      if k != id {
        assert k in LiveIds(db);
        OthersStayHandled(db, db', id, k);
      }
    }
  }

  lemma {:induction false} BatchKeepsLookedAfter(env: Env, db: DB, ids: seq<CaseId>, money: Draws)
    requires Good(env, db) && AllLookedAfter(db) && forall id :: id in ids ==> id in db.cases
    requires ResolveBatch(env, db, ids, money).Success?
    ensures AllLookedAfter(ResolveBatch(env, db, ids, money).value.0)
  {
    hide GoodOwing, ResolveCase, AllLookedAfter, Settled, OutcomesMatch;
    if ids != [] {
      var before, id := ids[..|ids| - 1], ids[|ids| - 1];
      assert ids == before + [id];
      BatchKeepsLookedAfter(env, db, before, money);
      BatchIsNeverIllegal(env, db, before, money);
      var mid := ResolveBatch(env, db, before, money).value.0;
      EvolvingKeepsTheCases(db, mid, id);
      ResolveKeepsLookedAfter(env, mid, id, money(id));
    }
  }

  /** The run and then the simulator over any of its cases: #9 is still not violated. */
  lemma RunAndResolveLookAfterEveryCase(env: Env, tr: Thresholds, t: Thresholds, start: DB, batch: seq<RiskCase>,
                                        ids: seq<CaseId>, money: Draws)
    requires FreshBatch(env, start, batch)
    requires Run(env, Shipped(tr), t, start, batch).Success?
    requires forall id :: id in ids ==> InBatch(batch, id)
    requires ResolveBatch(env, Run(env, Shipped(tr), t, start, batch).value.0, ids, money).Success?
    ensures var db := ResolveBatch(env, Run(env, Shipped(tr), t, start, batch).value.0, ids, money).value.0;
            Good(env, db) && forall id :: id in OpenCases(db) ==> HasANextStep(db, id)
  {
    hide Run, GoodOwing, LookedAfter, ResolveBatch, Settled, OutcomesMatch, HasANextStep, AllLookedAfter;
    RunLooksAfterEveryCase(env, tr, t, start, batch);
    AllLookedAfterExactly(Run(env, Shipped(tr), t, start, batch).value.0);
    RunMakesProgress(env, tr, t, start, batch, batch);
    var db := Run(env, Shipped(tr), t, start, batch).value.0;
    forall id | id in ids ensures id in db.cases {
      var i :| 0 <= i < |batch| && batch[i].caseId == id;
      assert Handled(db, batch[i].caseId);
    }
    BatchKeepsLookedAfter(env, db, ids, money);
    BatchIsNeverIllegal(env, db, ids, money);
    AllLookedAfterExactly(ResolveBatch(env, db, ids, money).value.0);
  }

  lemma AllLookedAfterExactly(db: DB)
    ensures AllLookedAfter(db) <==> forall id :: id in OpenCases(db) ==> HasANextStep(db, id)
  {
    hide LookedAfter, HasANextStep;
    forall id ensures (id in OpenCases(db) <==> id in LiveIds(db)) && (id in db.cases ==> (LookedAfter(db, id) <==> HasANextStep(db, id))) {
      LookedAfterExactly(db, id);
    }
  }
}
