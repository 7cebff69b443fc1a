/**
 What every step of the agent keeps: actions and keyed audit rows stay in one-to-one
 correspondence, no case is acted on twice, and one step touches one case.
 */
module FlowSafety {
  import opened Wrappers
  import opened Vocabulary
  import opened Actions
  import opened Cases
  import opened Parties
  import opened PolicyFormat
  import opened PolicyEngine
  import opened PolicyRules
  import opened PolicyFacts
  import opened ShippedPolicy
  import opened AuditChain
  import opened Spine
  import opened Flow
  import D = Diagnosis
  import Outbox

  // ------------------------------------------------------------ the invariant

  function KeyIn(r: AuditRow): seq<IdempotencyKey> {
    if r.body.idempotencyKey.Some? then [r.body.idempotencyKey.value] else []
  }

  /** The keys of the log's action rows, in order. */
  function KeyLog(audit: seq<AuditRow>): seq<IdempotencyKey> {
    if audit == [] then [] else KeyLog(audit[..|audit| - 1]) + KeyIn(audit[|audit| - 1])
  }

  function Keys(q: Outbox.Queue): seq<IdempotencyKey> {
    seq(|q|, i requires 0 <= i < |q| => q[i].key)
  }

  /** The n-th action row of the log carries the key of the n-th outbox row; `owed`
      are the keys enqueued but not yet logged in the middle of a step. */
  predicate Paired(db: DB, owed: seq<IdempotencyKey>) {
    Keys(db.outbox) == KeyLog(db.audit) + owed
  }

  predicate KeyedRowsNameTheirCase(audit: seq<AuditRow>) {
    forall i :: 0 <= i < |audit| && audit[i].body.idempotencyKey.Some? ==> audit[i].body.caseId.Some?
  }

  /** Only a case whose diagnosis has started has an action, and it has at most one. */
  predicate OneActionPerCase(db: DB) {
    && (forall i :: 0 <= i < |db.outbox| ==>
          db.outbox[i].caseId in db.cases && db.cases[db.outbox[i].caseId].state.PastDetection())
    && (forall i, j :: 0 <= i < j < |db.outbox| ==> db.outbox[i].caseId != db.outbox[j].caseId)
  }

  ghost predicate GoodOwing(env: Env, db: DB, owed: seq<IdempotencyKey>) {
    GoodLedger(env, db) && Paired(db, owed) && KeyedRowsNameTheirCase(db.audit) && OneActionPerCase(db)
  }

  ghost predicate Good(env: Env, db: DB) {
    GoodOwing(env, db, [])
  }

  lemma EmptyDbIsGood(env: Env)
    ensures Good(env, EMPTY_DB)
  {
    EmptyIsGood(env);
  }

  /** The step touched at most this one case, and only added to the log. */
  predicate Touches(a: DB, b: DB, id: CaseId) {
    && b.obligations == a.obligations
    && b.cases.Keys == a.cases.Keys
    && (forall k :: k in a.cases && k != id ==> b.cases[k] == a.cases[k])
    && (id in a.cases ==> SameCase(a.cases[id], b.cases[id]))
    && a.audit <= b.audit
  }

  lemma TouchesTwice(a: DB, b: DB, c: DB, id: CaseId)
    requires Touches(a, b, id) && Touches(b, c, id)
    ensures Touches(a, c, id)
  {
  }

  lemma KeyLogGrows(audit: seq<AuditRow>, r: AuditRow)
    ensures KeyLog(audit + [r]) == KeyLog(audit) + KeyIn(r)
  {
    assert (audit + [r])[..|audit|] == audit;
  }

  // ------------------------------------------------------------ single writes

  /** Rows about neither a move nor an action. */
  predicate Quiet(b: Body) {
    !b.inputs.MoveInputs? && b.idempotencyKey.None?
  }

  lemma QuietRow(audit: seq<AuditRow>, r: AuditRow)
    requires r.body.idempotencyKey.None?
    ensures KeyLog(audit + [r]) == KeyLog(audit)
    ensures KeyedRowsNameTheirCase(audit) ==> KeyedRowsNameTheirCase(audit + [r])
  {
    KeyLogGrows(audit, r);
  }

  lemma QuietLogKeepsGood(env: Env, db: DB, body: Body, id: CaseId)
    requires Good(env, db) && Quiet(body)
    ensures var r := Log(env, db, body);
            r.Success? ==> Good(env, r.value) && Touches(db, r.value, id)
                           && r.value.cases == db.cases && r.value.outbox == db.outbox
  {
    hide Log, GoodLedger, KeyedRowsNameTheirCase, KeyLog;
    LogKeepsLedgerGood(env, db, body);
    QuietRow(db.audit, NextRow(env.hash, db.audit, body));
  }

  /** No edge leads a case back before its diagnosis. */
  lemma NoEdgeUndoesDiagnosis(from: CaseState, to: CaseState)
    requires CanMove(from, to) && from.PastDetection()
    ensures to.PastDetection()
  {
  }

  lemma MovedCaseKeepsItsAction(db: DB, id: CaseId, c: RiskCase)
    requires OneActionPerCase(db)
    requires id in db.cases && CanMove(db.cases[id].state, c.state)
    ensures OneActionPerCase(db.(cases := db.cases[id := c]))
  {
    if db.cases[id].state.PastDetection() {
      NoEdgeUndoesDiagnosis(db.cases[id].state, c.state);
    }
  }

  lemma MovedTouches(env: Env, db: DB, id: CaseId, to: CaseState, u: FieldUpdates,
                     actor: ActorType, event: EventType, at: Instant)
    requires id in db.cases
    ensures Touches(db, Moved(env, db, id, to, u, actor, event, at), id)
  {
  }

  lemma MoveHappens(env: Env, db: DB, id: CaseId, to: CaseState, u: FieldUpdates,
                    actor: ActorType, event: EventType, at: Instant)
    requires GoodLedger(env, db) && Transition(env, db, id, to, u, actor, event, at).Success?
    ensures id in db.cases && CanMove(db.cases[id].state, to)
    ensures Transition(env, db, id, to, u, actor, event, at).value == Moved(env, db, id, to, u, actor, event, at)
    ensures GoodLedger(env, Moved(env, db, id, to, u, actor, event, at))
  {
    hide Transition, Moved, CasesGood, ChainGood;
    TransitionExactly(env, db, id, to, u, actor, event, at);
    TransitionKeepsLedgerGood(env, db, id, to, u, actor, event, at);
  }

  /** A move of any case, by anyone, keeps the invariant. */
  lemma MoveKeepsGood(env: Env, db: DB, id: CaseId, to: CaseState, u: FieldUpdates,
                      actor: ActorType, event: EventType, at: Instant, owed: seq<IdempotencyKey>)
    requires GoodOwing(env, db, owed) && Transition(env, db, id, to, u, actor, event, at).Success?
    ensures var db' := Transition(env, db, id, to, u, actor, event, at).value;
            && GoodOwing(env, db', owed) && Touches(db, db', id) && db'.outbox == db.outbox
            && id in db.cases && db'.cases[id] == Overwrite(db.cases[id], to, u) && CanMove(db.cases[id].state, to)
  {
    hide Transition, GoodLedger, KeyedRowsNameTheirCase, KeyLog, Touches;
    MoveHappens(env, db, id, to, u, actor, event, at);
    MovedTouches(env, db, id, to, u, actor, event, at);
    MovedCaseKeepsItsAction(db, id, Overwrite(db.cases[id], to, u));
    QuietRow(db.audit, Moved(env, db, id, to, u, actor, event, at).audit[|db.audit|]);
  }

  // ------------------------------------------------------------ the parts of a step

  lemma OnlyDetectionIsDiagnosed(from: CaseState)
    requires CanMove(from, Diagnosing)
    ensures from == Detected
  {
  }

  lemma BeginKeepsGood(env: Env, db: DB, c: RiskCase, at: Instant)
    requires Good(env, db) && Begin(env, db, c, at).Success?
    ensures var db' := Begin(env, db, c, at).value;
            && Good(env, db') && Touches(db, db', c.caseId) && db'.outbox == db.outbox
            && c.caseId in db.cases && db.cases[c.caseId].state == Detected
            && db'.cases[c.caseId] == db.cases[c.caseId].(state := Diagnosing)
  {
    hide Log, Transition, GoodOwing, Touches;
    var body := Note(at, c.caseId, Agent, DiagnosisProduced, DiagnosisInputs(c.caseId, c.riskClass, c.declineClass));
    QuietLogKeepsGood(env, db, body, c.caseId);
    var diagnosed := Log(env, db, body).value;
    MoveKeepsGood(env, diagnosed, c.caseId, Diagnosing, NO_UPDATES, Agent, CaseStateChanged, at, []);
    OnlyDetectionIsDiagnosed(db.cases[c.caseId].state);
    TouchesTwice(db, diagnosed, Begin(env, db, c, at).value, c.caseId);
  }

  lemma ParkKeepsGood(env: Env, db: DB, id: CaseId, d: D.Diagnosis, e: Envelope, ids: seq<nat>, at: Instant)
    requires Good(env, db) && Park(env, db, id, d, e, ids, at).Success?
    ensures var db' := Park(env, db, id, d, e, ids, at).value;
            && Good(env, db') && Touches(db, db', id) && db'.outbox == db.outbox
            && id in db.cases && db'.cases[id].state == AwaitingApproval
  {
    hide Log, Transition, GoodOwing, Touches;
    MoveKeepsGood(env, db, id, Planned, DiagnosedAs(d.diagnosisId), Agent, CaseStateChanged, at, []);
    var planned := AgentMove(env, db, id, Planned, DiagnosedAs(d.diagnosisId), at).value;
    var body := Body(at, Some(id), Agent, ApprovalRequested, ApprovalInputs(id, KeyOf(env.world.digest, e)), None, ids, None);
    QuietLogKeepsGood(env, planned, body, id);
    var requested := Log(env, planned, body).value;
    MoveKeepsGood(env, requested, id, AwaitingApproval, NO_UPDATES, Agent, CaseStateChanged, at, []);
    TouchesTwice(db, planned, requested, id);
    TouchesTwice(db, requested, Park(env, db, id, d, e, ids, at).value, id);
  }

  predicate HasNoAction(q: Outbox.Queue, id: CaseId) {
    forall i :: 0 <= i < |q| ==> q[i].caseId != id
  }

  lemma FirstActionOfItsCase(db: DB, row: Outbox.OutboxRow)
    requires OneActionPerCase(db)
    requires row.caseId in db.cases && db.cases[row.caseId].state.PastDetection() && HasNoAction(db.outbox, row.caseId)
    ensures OneActionPerCase(db.(outbox := db.outbox + [row]))
  {
  }

  lemma KeyedRow(audit: seq<AuditRow>, r: AuditRow, key: IdempotencyKey)
    requires r.body.idempotencyKey == Some(key) && r.body.caseId.Some?
    ensures KeyLog(audit + [r]) == KeyLog(audit) + [key]
    ensures KeyedRowsNameTheirCase(audit) ==> KeyedRowsNameTheirCase(audit + [r])
  {
    KeyLogGrows(audit, r);
  }

  lemma FreshEnqueue(env: Env, db: DB, e: Envelope)
    requires Enqueue(env, db, e).Success?
    requires Outbox.IndexOfKey(db.outbox, KeyOf(env.world.digest, e)).None?
    ensures var row := Outbox.NewRow(env.world.digest, db.outbox, e);
            Enqueue(env, db, e).value == (WithRow(db, row), row)
  {
  }

  function WithRow(db: DB, row: Outbox.OutboxRow): DB {
    db.(outbox := db.outbox + [row])
  }

  lemma RowOwesItsKey(env: Env, db: DB, row: Outbox.OutboxRow)
    requires Good(env, db) && GoodLedger(env, WithRow(db, row))
    requires row.caseId in db.cases && db.cases[row.caseId].state.PastDetection() && HasNoAction(db.outbox, row.caseId)
    ensures GoodOwing(env, WithRow(db, row), [row.key]) && Touches(db, WithRow(db, row), row.caseId)
  {
    hide GoodLedger, KeyLog, Keys, KeyedRowsNameTheirCase;
    FirstActionOfItsCase(db, row);
    KeysGrow(db.outbox, row);
  }

  lemma KeysGrow(q: Outbox.Queue, row: Outbox.OutboxRow)
    ensures Keys(q + [row]) == Keys(q) + [row.key]
  {
  }

  /** A new action for a case that has none: its key is owed to the log. */
  lemma EnqueueOwesItsKey(env: Env, db: DB, e: Envelope)
    requires Good(env, db) && Enqueue(env, db, e).Success?
    requires Outbox.IndexOfKey(db.outbox, KeyOf(env.world.digest, e)).None?
    requires e.caseId in db.cases && db.cases[e.caseId].state.PastDetection() && HasNoAction(db.outbox, e.caseId)
    ensures var row := Outbox.NewRow(env.world.digest, db.outbox, e);
            && Enqueue(env, db, e).value == (WithRow(db, row), row)
            && GoodOwing(env, WithRow(db, row), [row.key]) && Touches(db, WithRow(db, row), e.caseId)
  {
    hide Enqueue, GoodLedger, OneActionPerCase, Touches, HasNoAction, KeyLog, Keys;
    FreshEnqueue(env, db, e);
    EnqueueKeepsLedgerGood(env, db, e);
    RowOwesItsKey(env, db, Outbox.NewRow(env.world.digest, db.outbox, e));
  }

  lemma DebtSettled(db: DB, r: AuditRow, key: IdempotencyKey)
    requires Paired(db, [key])
    requires r.body.idempotencyKey == Some(key) && r.body.caseId.Some?
    ensures Paired(db.(audit := db.audit + [r]), [])
  {
    KeyedRow(db.audit, r, key);
  }

  /** The action row settles the debt. */
  lemma ActionRowSettles(env: Env, db: DB, id: CaseId, rowId: nat, e: Envelope, at: Instant)
    requires GoodOwing(env, db, [KeyOf(env.world.digest, e)])
    requires Log(env, db, ScheduledBody(env, id, rowId, e, at)).Success?
    ensures var db' := Log(env, db, ScheduledBody(env, id, rowId, e, at)).value;
            Good(env, db') && Touches(db, db', id) && db'.cases == db.cases && db'.outbox == db.outbox
  {
    hide Log, GoodLedger, KeyedRowsNameTheirCase, KeyLog;
    var body := ScheduledBody(env, id, rowId, e, at);
    LogKeepsLedgerGood(env, db, body);
    var row := NextRow(env.hash, db.audit, body);
    KeyedRow(db.audit, row, KeyOf(env.world.digest, e));
    DebtSettled(db, row, KeyOf(env.world.digest, e));
  }

  lemma CarryOutKeepsGood(env: Env, db: DB, id: CaseId, d: D.Diagnosis, e: Envelope, at: Instant)
    requires Good(env, db) && CarryOut(env, db, id, d, e, at).Success?
    requires Outbox.IndexOfKey(db.outbox, KeyOf(env.world.digest, e)).None?
    requires e.caseId == id && id in db.cases && db.cases[id].state == Diagnosing && HasNoAction(db.outbox, id)
    ensures var (db', rowId) := CarryOut(env, db, id, d, e, at).value;
            && Good(env, db') && Touches(db, db', id) && db'.cases[id].state == Scheduled
            && db'.outbox == db.outbox + [Outbox.NewRow(env.world.digest, db.outbox, e)]
            && rowId == Outbox.NextId(db.outbox)
  {
    hide Log, Transition, Enqueue, GoodOwing, Touches, HasNoAction;
    EnqueueOwesItsKey(env, db, e);
    var (queued, row) := Enqueue(env, db, e).value;
    var u := DiagnosedAs(d.diagnosisId);
    MoveKeepsGood(env, queued, id, Planned, u, Agent, CaseStateChanged, at, [row.key]);
    var planned := AgentMove(env, queued, id, Planned, u, at).value;
    ActionRowSettles(env, planned, id, row.id, e, at);
    var recorded := Log(env, planned, ScheduledBody(env, id, row.id, e, at)).value;
    MoveKeepsGood(env, recorded, id, Scheduled, NO_UPDATES, Agent, CaseStateChanged, at, []);
    var scheduled := AgentMove(env, recorded, id, Scheduled, NO_UPDATES, at).value;
    TouchesTwice(db, queued, planned, id);
    TouchesTwice(db, planned, recorded, id);
    TouchesTwice(db, recorded, scheduled, id);
  }

  // ------------------------------------------------------------ the step

  function Shipped(t: Thresholds): seq<PolicyRule> {
    RulesOf(MinimalGates(t))
  }

  lemma AllowedKeyIsNew(t: Thresholds, w: World, q: Outbox.Queue, e: Envelope, context: FactContext)
    requires context.usedIdempotencyKeys == UsedKeys(q, KeyOf(w.digest, e))
    requires var r := Evaluate(Shipped(t), RequestFor(e, context), FactsFor(w, e, context));
             r.Success? && r.value.decision.effect != Deny
    ensures Outbox.IndexOfKey(q, KeyOf(w.digest, e)).None?
  {
    hide Evaluate, RulesOf, FactsFor;
    if Outbox.IndexOfKey(q, KeyOf(w.digest, e)).Some? {
      UsedKeyIsDenied(t, w, e, context);
    }
  }

  /** What the ledger looks like once a ruling is carried out on a diagnosed case. */
  predicate RulingCarriedOut(env: Env, db: DB, db': DB, id: CaseId, e: Envelope, effect: PolicyEffect, r: CaseResult) {
    && id in db'.cases && db'.cases[id].state == r.finalState
    && match effect {
         case Allow =>
           && r.outcome == Allowed && r.finalState == Scheduled && r.outboxId == Some(Outbox.NextId(db.outbox))
           && db'.outbox == db.outbox + [Outbox.NewRow(env.world.digest, db.outbox, e)]
         case AllowWithApproval =>
           r.outcome == PendingApproval && r.finalState == AwaitingApproval && r.outboxId.None? && db'.outbox == db.outbox
         case _ =>
           r.outcome == Denied && r.finalState == Stopped && r.outboxId.None? && db'.outbox == db.outbox
       }
  }

  lemma CarryOutRulingKeepsGood(env: Env, db: DB, id: CaseId, d: D.Diagnosis, e: Envelope, ruling: PolicyDecision,
                                hedged: bool, at: Instant)
    requires Good(env, db) && CarryOutRuling(env, db, id, d, e, ruling, hedged, at).Success?
    requires ruling.effect == Allow ==> Outbox.IndexOfKey(db.outbox, KeyOf(env.world.digest, e)).None?
    requires e.caseId == id && id in db.cases && db.cases[id].state == Diagnosing && HasNoAction(db.outbox, id)
    ensures var (db', r) := CarryOutRuling(env, db, id, d, e, ruling, hedged, at).value;
            && Good(env, db') && Touches(db, db', id)
            && RulingCarriedOut(env, db, db', id, e, ruling.effect, r) && r.caseId == id && r.hedged == hedged
  {
    hide CarryOut, Park, Transition, GoodOwing;
    if ruling.effect == Allow {
      CarryOutKeepsGood(env, db, id, d, e, at);
    } else if ruling.effect == AllowWithApproval {
      ParkKeepsGood(env, db, id, d, e, VerdictIds(ruling.verdicts), at);
    } else {
      MoveKeepsGood(env, db, id, Stopped, StopWith(PolicyBlocked, at), Agent, CaseStateChanged, at, []);
    }
  }

  /** The ruling is exactly the one the shipped policy gives on the ledger as it stands. */
  lemma RuleOnKeepsGood(env: Env, tr: Thresholds, t: Thresholds, db: DB, c: RiskCase, o: Obligation, d: D.Diagnosis,
                        e: Envelope, hedged: bool, at: Instant)
    requires Good(env, db) && RuleOn(env, Shipped(tr), t, db, c, o, d, e, hedged, at).Success?
    requires e.caseId == c.caseId && c.caseId in db.cases && db.cases[c.caseId].state == Diagnosing
    requires HasNoAction(db.outbox, c.caseId)
    ensures var (db', r) := RuleOn(env, Shipped(tr), t, db, c, o, d, e, hedged, at).value;
            var context := ContextFor(env.world, t, db.outbox, c, o, e, at);
            && Good(env, db') && Touches(db, db', c.caseId) && r.caseId == c.caseId && r.hedged == hedged
            && RulingCarriedOut(env, db, db', c.caseId, e, Ruling(tr, env.world, e, context), r)
  {
    hide CarryOutRuling, Evaluate, FactsFor, Log, GoodOwing, Touches, Ruling, RulesOf;
    var id, w := c.caseId, env.world;
    var context := ContextFor(w, t, db.outbox, c, o, e, at);
    EngineGivesTheRuling(tr, w, e, context);
    var decision := Evaluate(Shipped(tr), RequestFor(e, context), FactsFor(w, e, context)).value.decision;
    var body := JudgedBody(env, id, e, decision, at);
    QuietLogKeepsGood(env, db, body, id);
    var judged := Log(env, db, body).value;
    if decision.effect == Allow {
      AllowedKeyIsNew(tr, w, db.outbox, e, context);
    }
    CarryOutRulingKeepsGood(env, judged, id, d, e, decision, hedged, at);
    TouchesTwice(db, judged, CarryOutRuling(env, judged, id, d, e, decision, hedged, at).value.0, id);
  }

  lemma NoteHedgeKeepsGood(env: Env, db: DB, id: CaseId, e: Envelope, hedged: bool, at: Instant)
    requires Good(env, db) && NoteHedge(env, db, id, e, hedged, at).Success?
    ensures var db' := NoteHedge(env, db, id, e, hedged, at).value;
            Good(env, db') && Touches(db, db', id) && db'.cases == db.cases && db'.outbox == db.outbox
  {
    hide Log, GoodOwing;
    if hedged && e.action.SendMessage? {
      QuietLogKeepsGood(env, db, Note(at, id, Agent, ContestedDiagnosisHedged, HedgeInputs(id, e.action.intent)), id);
    }
  }

  lemma JudgeKeepsGood(env: Env, tr: Thresholds, t: Thresholds, db: DB, c: RiskCase, o: Obligation, d: D.Diagnosis,
                       e: Envelope, hedged: bool, at: Instant)
    requires Good(env, db) && Judge(env, Shipped(tr), t, db, c, o, d, e, hedged, at).Success?
    requires e.caseId == c.caseId && c.caseId in db.cases && db.cases[c.caseId].state == Diagnosing
    requires HasNoAction(db.outbox, c.caseId)
    ensures var (db', r) := Judge(env, Shipped(tr), t, db, c, o, d, e, hedged, at).value;
            var context := ContextFor(env.world, t, db.outbox, c, o, e, at);
            && Good(env, db') && Touches(db, db', c.caseId) && r.caseId == c.caseId && r.hedged == hedged
            && RulingCarriedOut(env, db, db', c.caseId, e, Ruling(tr, env.world, e, context), r)
  {
    hide RuleOn, GoodOwing, Touches, Log, Ruling;
    NoteHedgeKeepsGood(env, db, c.caseId, e, hedged, at);
    var noted := NoteHedge(env, db, c.caseId, e, hedged, at).value;
    RuleOnKeepsGood(env, tr, t, noted, c, o, d, e, hedged, at);
    TouchesTwice(db, noted, RuleOn(env, Shipped(tr), t, noted, c, o, d, e, hedged, at).value.0, c.caseId);
  }

  // ------------------------------------------------------------ one case

  lemma ProposalsNameTheirCase(w: World, t: Thresholds, c: RiskCase, o: Obligation, d: D.Diagnosis, at: Instant)
    ensures var p := Proposal(w, t, c, o, d, at); p.Some? ==> p.value.caseId == c.caseId
  {
  }

  /** A diagnosed case is with a human when nothing is proposed, and otherwise where the
      policy's ruling on the ledger as it stands sends it. */
  predicate ActedOn(env: Env, tr: Thresholds, t: Thresholds, db: DB, db': DB, c: RiskCase, o: Obligation,
                    d: D.Diagnosis, at: Instant, r: CaseResult)
  {
    match Proposal(env.world, t, c, o, d, at)
    case None =>
      && r.finalState == Escalated && db'.outbox == db.outbox
      && c.caseId in db'.cases && db'.cases[c.caseId].state == Escalated
    case Some(e) =>
      var context := ContextFor(env.world, t, db.outbox, c, o, e, at);
      RulingCarriedOut(env, db, db', c.caseId, e, Ruling(tr, env.world, e, context), r)
  }

  lemma ActKeepsGood(env: Env, tr: Thresholds, t: Thresholds, db: DB, c: RiskCase, o: Obligation, d: D.Diagnosis, at: Instant)
    requires Good(env, db) && Act(env, Shipped(tr), t, db, c, o, d, at).Success?
    requires c.caseId in db.cases && db.cases[c.caseId].state == Diagnosing && HasNoAction(db.outbox, c.caseId)
    ensures var (db', r) := Act(env, Shipped(tr), t, db, c, o, d, at).value;
            Good(env, db') && Touches(db, db', c.caseId) && ActedOn(env, tr, t, db, db', c, o, d, at, r)
  {
    hide Judge, Transition, Proposal, GoodOwing, Ruling, ContextFor;
    ProposalsNameTheirCase(env.world, t, c, o, d, at);
    match Proposal(env.world, t, c, o, d, at)
    case Some(e) => JudgeKeepsGood(env, tr, t, db, c, o, d, e, d.confidence < t.confidenceFloor, at);
    case None => MoveKeepsGood(env, db, c.caseId, Escalated, NO_UPDATES, Agent, CaseStateChanged, at, []);
  }

  /** One completed step of a routing arm. The case was `detected` before it. */
  predicate RoutedEffect(env: Env, tr: Thresholds, t: Thresholds, db: DB, db': DB, c: RiskCase, at: Instant, r: CaseResult) {
    && c.caseId in db.cases && db.cases[c.caseId].state == Detected && c.obligationId in db.obligations
    && ActedOn(env, tr, t, db, db', db.cases[c.caseId].(state := Diagnosing), db.obligations[c.obligationId],
               D.Diagnose(c), at, r)
  }

  lemma UndiagnosedHasNoAction(db: DB, id: CaseId)
    requires OneActionPerCase(db)
    requires id in db.cases ==> !db.cases[id].state.PastDetection()
    ensures HasNoAction(db.outbox, id)
  {
  }

  lemma CaseKnowsItsId(env: Env, db: DB, id: CaseId)
    requires Good(env, db) && id in db.cases
    ensures db.cases[id].caseId == id
  {
  }

  lemma GoodHasOneActionPerCase(env: Env, db: DB)
    requires Good(env, db)
    ensures OneActionPerCase(db)
  {
  }

  lemma RoutedKeepsGood(env: Env, tr: Thresholds, t: Thresholds, db: DB, c: RiskCase, at: Instant)
    requires Good(env, db) && Routed(env, Shipped(tr), t, db, c, at).Success?
    ensures var (db', r) := Routed(env, Shipped(tr), t, db, c, at).value;
            Good(env, db') && Touches(db, db', c.caseId) && RoutedEffect(env, tr, t, db, db', c, at, r)
  {
    hide Begin, Act, GoodOwing, Touches, D.Diagnose, Proposal, Ruling, ContextFor;
    BeginKeepsGood(env, db, c, at);
    GoodHasOneActionPerCase(env, db);
    UndiagnosedHasNoAction(db, c.caseId);
    CaseKnowsItsId(env, db, c.caseId);
    var started := Begin(env, db, c, at).value;
    var o, d, current := db.obligations[c.obligationId], D.Diagnose(c), started.cases[c.caseId];
    ActKeepsGood(env, tr, t, started, current, o, d, at);
    TouchesTwice(db, started, Act(env, Shipped(tr), t, started, current, o, d, at).value.0, c.caseId);
  }
}
