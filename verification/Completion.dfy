/**
 When a run completes: with a hash that never returns the genesis value, nothing in a
 fresh batch can make the agent step raise.
 */
module Completion {
  import opened Wrappers
  import opened Vocabulary
  import opened Actions
  import opened Cases
  import opened Parties
  import opened PolicyFormat
  import opened PolicyEngine
  import opened PolicyRules
  import opened PolicyFacts
  import opened ShippedPolicy
  import opened AuditChain
  import opened Spine
  import opened Flow
  import opened FlowSafety
  import opened Outcomes
  import opened BatchRuns
  import D = Diagnosis
  import Outbox

  // ------------------------------------------------------------ no verdict is reported twice

  lemma {:induction false} SelectedStayUnique(rules: seq<PolicyRule>, q: Request)
    requires UniqueIds(rules)
    ensures UniqueIds(Selected(rules, q))
  {
    if rules != [] {
      var before, last := rules[..|rules| - 1], rules[|rules| - 1];
      SelectedStayUnique(before, q);
      SelectedMembers(before, q);
      forall r | r in Selected(before, q) ensures r.ruleId != last.ruleId {
        var i :| 0 <= i < |before| && before[i] == r;
        assert rules[i].ruleId != rules[|rules| - 1].ruleId;
      }
    }
  }

  lemma {:induction false} VerdictsStayUnique(rules: seq<PolicyRule>, facts: Facts)
    requires UniqueIds(rules)
    ensures NoRepeatedIds(VerdictIds(VerdictsOf(rules, facts)))
  {
    if rules != [] {
      var before, last := rules[..|rules| - 1], rules[|rules| - 1];
      VerdictsStayUnique(before, facts);
      VerdictMembers(before, facts);
      var vs := VerdictsOf(before, facts);
      forall i | 0 <= i < |vs| ensures vs[i].ruleId != last.ruleId {
        assert vs[i] in vs;
        var r :| r in before && Consult(r, facts) == Speaks(vs[i]);
        SpeaksUnderItsOwnId(r, facts);
        var k :| 0 <= k < |before| && before[k] == r;
        assert rules[k].ruleId != rules[|rules| - 1].ruleId;
      }
      SpeaksUnderItsOwnId(last, facts);
      forall i, j | 0 <= i < j < |VerdictsOf(rules, facts)|
        ensures VerdictsOf(rules, facts)[i].ruleId != VerdictsOf(rules, facts)[j].ruleId
      {
        if j < |vs| {
          assert VerdictIds(vs)[i] != VerdictIds(vs)[j];
        }
      }
    }
  }

  lemma SpeaksUnderItsOwnId(r: PolicyRule, facts: Facts)
    ensures Consult(r, facts).Speaks? ==> Consult(r, facts).verdict.ruleId == r.ruleId
  {
  }

  predicate GateIdsDiffer(gates: seq<GateSpec>) {
    && (forall i :: 0 <= i < |gates| ==> gates[i].denyRuleId != gates[i].allowRuleId)
    && (forall i, j :: 0 <= i < j < |gates| ==>
          && gates[i].denyRuleId != gates[j].denyRuleId && gates[i].denyRuleId != gates[j].allowRuleId
          && gates[i].allowRuleId != gates[j].denyRuleId && gates[i].allowRuleId != gates[j].allowRuleId)
  }

  lemma {:induction false} GateRulesAreUnique(gates: seq<GateSpec>)
    requires GateIdsDiffer(gates)
    ensures UniqueIds(RulesOf(gates))
  {
    if gates != [] {
      var before, last := gates[..|gates| - 1], gates[|gates| - 1];
      GateRulesAreUnique(before);
      RuleMembers(before);
      var rules := RulesOf(before);
      forall i | 0 <= i < |rules| ensures rules[i].ruleId != last.denyRuleId && rules[i].ruleId != last.allowRuleId {
        assert rules[i] in rules;
        var g :| g in before && (rules[i] == Restrictive(g) || rules[i] == Permissive(g));
        var k :| 0 <= k < |before| && before[k] == g;
        assert gates[k] == g;
      }
    }
  }

  /** The engine never reports one rule twice, so its evaluation can be recorded. */
  lemma RulingCanBeRecorded(env: Env, tr: Thresholds, q: Request, facts: Facts, id: CaseId, e: Envelope, at: Instant)
    requires Evaluate(Shipped(tr), q, facts).Success?
    ensures var d := Evaluate(Shipped(tr), q, facts).value.decision;
            NoRepeatedIds(VerdictIds(d.verdicts)) && BodyValid(env.world.digest, JudgedBody(env, id, e, d, at))
  {
    hide RulesOf, Selected, VerdictsOf;
    assert GateIdsDiffer(MinimalGates(tr));
    GateRulesAreUnique(MinimalGates(tr));
    SelectedStayUnique(Shipped(tr), q);
    VerdictsStayUnique(Selected(Shipped(tr), q), facts);
  }

  // ------------------------------------------------------------ single writes

  ghost predicate NeverGenesis(h: RowHash) {
    forall r: AuditRow :: h(r) != GENESIS_HASH
  }

  lemma LogSucceeds(env: Env, db: DB, body: Body)
    requires Good(env, db) && NeverGenesis(env.hash) && BodyValid(env.world.digest, body)
    ensures Log(env, db, body).Success?
  {
    LogAppends(env, db, body);
  }

  lemma MoveSucceeds(env: Env, db: DB, id: CaseId, to: CaseState, u: FieldUpdates, at: Instant, owed: seq<IdempotencyKey>)
    requires GoodOwing(env, db, owed) && NeverGenesis(env.hash)
    requires id in db.cases && CanMove(db.cases[id].state, to) && UpdatesFit(db.cases[id], to, u)
    ensures AgentMove(env, db, id, to, u, at).Success?
    ensures var db' := AgentMove(env, db, id, to, u, at).value;
            && GoodOwing(env, db', owed) && db'.outbox == db.outbox
            && id in db'.cases && db'.cases[id] == Overwrite(db.cases[id], to, u)
  {
    TransitionExactly(env, db, id, to, u, Agent, CaseStateChanged, at);
    MoveKeepsGood(env, db, id, to, u, Agent, CaseStateChanged, at, owed);
  }

  // ------------------------------------------------------------ the parts of a step

  lemma BeginSucceeds(env: Env, db: DB, c: RiskCase, at: Instant)
    requires Good(env, db) && NeverGenesis(env.hash)
    requires c.caseId in db.cases && db.cases[c.caseId].state == Detected
    ensures Begin(env, db, c, at).Success?
  {
    hide GoodOwing, NeverGenesis, Log, Transition;
    var body := Note(at, c.caseId, Agent, DiagnosisProduced, DiagnosisInputs(c.caseId, c.riskClass, c.declineClass));
    LogSucceeds(env, db, body);
    QuietLogKeepsGood(env, db, body, c.caseId);
    MoveSucceeds(env, Log(env, db, body).value, c.caseId, Diagnosing, NO_UPDATES, at, []);
  }

  lemma ParkSucceeds(env: Env, db: DB, id: CaseId, d: D.Diagnosis, e: Envelope, ids: seq<nat>, at: Instant)
    requires Good(env, db) && NeverGenesis(env.hash) && NoRepeatedIds(ids)
    requires id in db.cases && db.cases[id].state == Diagnosing
    ensures Park(env, db, id, d, e, ids, at).Success?
  {
    hide GoodOwing, NeverGenesis, Log, Transition;
    var u := DiagnosedAs(d.diagnosisId);
    MoveSucceeds(env, db, id, Planned, u, at, []);
    var planned := AgentMove(env, db, id, Planned, u, at).value;
    var body := Body(at, Some(id), Agent, ApprovalRequested, ApprovalInputs(id, KeyOf(env.world.digest, e)), None, ids, None);
    LogSucceeds(env, planned, body);
    QuietLogKeepsGood(env, planned, body, id);
    MoveSucceeds(env, Log(env, planned, body).value, id, AwaitingApproval, NO_UPDATES, at, []);
  }

  /** Nobody has queued this debit yet. */
  predicate DebitIsFree(q: Outbox.Queue, e: Envelope) {
    e.action.ScheduleDebit? ==> !Outbox.HoldsDebit(q, (e.action.obligationId, e.action.attemptSequence))
  }

  lemma FreeEnqueueSucceeds(env: Env, db: DB, e: Envelope)
    requires DebitIsFree(db.outbox, e)
    ensures Enqueue(env, db, e).Success?
  {
  }

  lemma KeyedLogSucceeds(env: Env, db: DB, body: Body, owed: seq<IdempotencyKey>)
    requires GoodOwing(env, db, owed) && NeverGenesis(env.hash) && BodyValid(env.world.digest, body)
    ensures Log(env, db, body).Success?
  {
    LogAppends(env, db, body);
  }

  lemma CarryOutSucceeds(env: Env, db: DB, id: CaseId, d: D.Diagnosis, e: Envelope, at: Instant)
    requires Good(env, db) && NeverGenesis(env.hash) && DebitIsFree(db.outbox, e)
    requires Outbox.IndexOfKey(db.outbox, KeyOf(env.world.digest, e)).None?
    requires e.caseId == id && id in db.cases && db.cases[id].state == Diagnosing && HasNoAction(db.outbox, id)
    ensures CarryOut(env, db, id, d, e, at).Success?
  {
    hide GoodOwing, NeverGenesis, Log, Transition, Enqueue, Outbox.NewRow;
    FreeEnqueueSucceeds(env, db, e);
    EnqueueOwesItsKey(env, db, e);
    var (queued, row) := Enqueue(env, db, e).value;
    NewRowCarriesItsKey(env, db, e);
    var u := DiagnosedAs(d.diagnosisId);
    MoveSucceeds(env, queued, id, Planned, u, at, [row.key]);
    var planned := AgentMove(env, queued, id, Planned, u, at).value;
    var body := ScheduledBody(env, id, row.id, e, at);
    KeyedLogSucceeds(env, planned, body, [row.key]);
    ActionRowSettles(env, planned, id, row.id, e, at);
    MoveSucceeds(env, Log(env, planned, body).value, id, Scheduled, NO_UPDATES, at, []);
  }

  lemma NewRowCarriesItsKey(env: Env, db: DB, e: Envelope)
    ensures Outbox.NewRow(env.world.digest, db.outbox, e).key == KeyOf(env.world.digest, e)
  {
  }

  lemma CarryOutRulingSucceeds(env: Env, db: DB, id: CaseId, d: D.Diagnosis, e: Envelope, ruling: PolicyDecision,
                               hedged: bool, at: Instant)
    requires Good(env, db) && NeverGenesis(env.hash) && DebitIsFree(db.outbox, e)
    requires NoRepeatedIds(VerdictIds(ruling.verdicts))
    requires ruling.effect == Allow ==> Outbox.IndexOfKey(db.outbox, KeyOf(env.world.digest, e)).None?
    requires e.caseId == id && id in db.cases && db.cases[id].state == Diagnosing && HasNoAction(db.outbox, id)
    requires at >= db.cases[id].detectedAt
    ensures CarryOutRuling(env, db, id, d, e, ruling, hedged, at).Success?
  {
    hide GoodOwing, NeverGenesis, CarryOut, Park, Transition;
    if ruling.effect == Allow {
      CarryOutSucceeds(env, db, id, d, e, at);
    } else if ruling.effect == AllowWithApproval {
      ParkSucceeds(env, db, id, d, e, VerdictIds(ruling.verdicts), at);
    } else {
      MoveSucceeds(env, db, id, Stopped, StopWith(PolicyBlocked, at), at, []);
    }
  }

  lemma RuleOnSucceeds(env: Env, tr: Thresholds, t: Thresholds, db: DB, c: RiskCase, o: Obligation, d: D.Diagnosis,
                       e: Envelope, hedged: bool, at: Instant)
    requires Good(env, db) && NeverGenesis(env.hash) && DebitIsFree(db.outbox, e)
    requires e.caseId == c.caseId && c.caseId in db.cases && db.cases[c.caseId].state == Diagnosing
    requires HasNoAction(db.outbox, c.caseId) && at >= db.cases[c.caseId].detectedAt
    ensures RuleOn(env, Shipped(tr), t, db, c, o, d, e, hedged, at).Success?
  {
    hide GoodOwing, NeverGenesis, CarryOutRuling, Log, Evaluate, FactsFor, RulesOf, Ruling, ContextFor, JudgedBody;
    var id, w := c.caseId, env.world;
    var context := ContextFor(w, t, db.outbox, c, o, e, at);
    EngineGivesTheRuling(tr, w, e, context);
    var decision := Evaluate(Shipped(tr), RequestFor(e, context), FactsFor(w, e, context)).value.decision;
    RulingCanBeRecorded(env, tr, RequestFor(e, context), FactsFor(w, e, context), id, e, at);
    var body := JudgedBody(env, id, e, decision, at);
    JudgedBodyIsQuiet(env, id, e, decision, at);
    LogSucceeds(env, db, body);
    QuietLogKeepsGood(env, db, body, id);
    ContextReadsTheKey(w, t, db.outbox, c, o, e, at);
    if decision.effect == Allow {
      AllowedKeyIsNew(tr, w, db.outbox, e, context);
    }
    CarryOutRulingSucceeds(env, Log(env, db, body).value, id, d, e, decision, hedged, at);
  }

  lemma JudgedBodyIsQuiet(env: Env, id: CaseId, e: Envelope, ruling: PolicyDecision, at: Instant)
    ensures Quiet(JudgedBody(env, id, e, ruling, at))
  {
  }

  lemma ContextReadsTheKey(w: World, t: Thresholds, q: Outbox.Queue, c: RiskCase, o: Obligation, e: Envelope, at: Instant)
    ensures ContextFor(w, t, q, c, o, e, at).usedIdempotencyKeys == UsedKeys(q, KeyOf(w.digest, e))
  {
  }

  lemma JudgeSucceeds(env: Env, tr: Thresholds, t: Thresholds, db: DB, c: RiskCase, o: Obligation, d: D.Diagnosis,
                      e: Envelope, hedged: bool, at: Instant)
    requires Good(env, db) && NeverGenesis(env.hash) && DebitIsFree(db.outbox, e)
    requires e.caseId == c.caseId && c.caseId in db.cases && db.cases[c.caseId].state == Diagnosing
    requires HasNoAction(db.outbox, c.caseId) && at >= db.cases[c.caseId].detectedAt
    ensures Judge(env, Shipped(tr), t, db, c, o, d, e, hedged, at).Success?
  {
    hide GoodOwing, NeverGenesis, RuleOn, Log;
    if hedged && e.action.SendMessage? {
      LogSucceeds(env, db, Note(at, c.caseId, Agent, ContestedDiagnosisHedged, HedgeInputs(c.caseId, e.action.intent)));
    }
    NoteHedgeKeepsGood(env, db, c.caseId, e, hedged, at);
    RuleOnSucceeds(env, tr, t, NoteHedge(env, db, c.caseId, e, hedged, at).value, c, o, d, e, hedged, at);
  }

  lemma ProposedDebitIsOwn(w: World, t: Thresholds, c: RiskCase, o: Obligation, d: D.Diagnosis, at: Instant)
    ensures var p := Proposal(w, t, c, o, d, at);
            p.Some? && p.value.action.ScheduleDebit? ==> p.value.action.obligationId == c.obligationId
  {
  }

  /** No debit of this obligation is queued at all. */
  predicate NoDebitOn(q: Outbox.Queue, o: ObligationId) {
    forall i :: 0 <= i < |q| && q[i].coordinates.Some? ==> q[i].coordinates.value.0 != o
  }

  lemma NoDebitIsFree(q: Outbox.Queue, e: Envelope)
    requires e.action.ScheduleDebit? ==> NoDebitOn(q, e.action.obligationId)
    ensures DebitIsFree(q, e)
  {
  }

  lemma ActSucceeds(env: Env, tr: Thresholds, t: Thresholds, db: DB, c: RiskCase, o: Obligation, d: D.Diagnosis, at: Instant)
    requires Good(env, db) && NeverGenesis(env.hash) && NoDebitOn(db.outbox, c.obligationId)
    requires c.caseId in db.cases && db.cases[c.caseId].state == Diagnosing && HasNoAction(db.outbox, c.caseId)
    requires at >= db.cases[c.caseId].detectedAt
    ensures Act(env, Shipped(tr), t, db, c, o, d, at).Success?
  {
    hide GoodOwing, NeverGenesis, Judge, Transition, Proposal;
    ProposalsNameTheirCase(env.world, t, c, o, d, at);
    ProposedDebitIsOwn(env.world, t, c, o, d, at);
    match Proposal(env.world, t, c, o, d, at)
    case Some(e) =>
      NoDebitIsFree(db.outbox, e);
      JudgeSucceeds(env, tr, t, db, c, o, d, e, d.confidence < t.confidenceFloor, at);
    case None => MoveSucceeds(env, db, c.caseId, Escalated, NO_UPDATES, at, []);
  }

  lemma ProcessSucceeds(env: Env, tr: Thresholds, t: Thresholds, db: DB, c: RiskCase)
    requires Good(env, db) && NeverGenesis(env.hash) && NoDebitOn(db.outbox, c.obligationId)
    requires c.caseId in db.cases && db.cases[c.caseId] == c && c.state == Detected && c.obligationId in db.obligations
    ensures ProcessCase(env, Shipped(tr), t, db, c).Success?
  {
    hide GoodOwing, NeverGenesis, Begin, Act, Log;
    var at := c.detectedAt + PLANNING_LATENCY;
    if IsRoutingArm(c.arm) {
      BeginSucceeds(env, db, c, at);
      BeginKeepsGood(env, db, c, at);
      UndiagnosedHasNoAction(db, c.caseId) by {
        GoodHasOneActionPerCase(env, db);
      }
      CaseKnowsItsId(env, db, c.caseId);
      var started := Begin(env, db, c, at).value;
      ActSucceeds(env, tr, t, started, started.cases[c.caseId], db.obligations[c.obligationId], D.Diagnose(c), at);
    } else {
      var event := if ArmSpecOf(c.arm).takesAnyAction then ArmNotRouted else ControlArmNoAction;
      LogSucceeds(env, db, Note(at, c.caseId, System, event, ArmInputs(c.caseId, c.arm)));
    }
  }

  // ------------------------------------------------------------ the batch

  /** The queue holds debits of processed cases only, and one obligation has one live case. */
  lemma NextCaseHasNoDebit(env: Env, start: DB, batch: seq<RiskCase>, db: DB, done: seq<RiskCase>, c: RiskCase)
    requires FreshBatch(env, start, batch) && done + [c] <= batch
    requires Evolves(start, db) && QueueOfDone(db, done)
    ensures NoDebitOn(db.outbox, c.obligationId)
  {
    hide GoodOwing;
    FreshIsOneLive(env, start, batch);
    assert batch[|done|] == c;
    forall i | 0 <= i < |db.outbox| && db.outbox[i].coordinates.Some?
      ensures db.outbox[i].coordinates.value.0 != c.obligationId
    {
      var r := db.outbox[i];
      assert RowOfDone(db, done, r);
      var k :| 0 <= k < |done| && done[k].caseId == r.caseId;
      assert batch[k] == done[k];
      assert SameCase(start.cases[r.caseId], db.cases[r.caseId]);
      assert batch[k].caseId != batch[|done|].caseId;
      assert !SharesLive(start.cases[batch[k].caseId], start.cases[batch[|done|].caseId]);
    }
  }

  lemma FreshIsOneLive(env: Env, start: DB, batch: seq<RiskCase>)
    requires FreshBatch(env, start, batch)
    ensures OneLiveCase(start) && CasesGood(start)
  {
  }

  /** Every fresh batch is processed to the end, whatever the world, the thresholds and
      the digests, as long as no audit row hashes to the genesis value. */
  lemma {:induction false} RunCompletes(env: Env, tr: Thresholds, t: Thresholds, start: DB, batch: seq<RiskCase>, done: seq<RiskCase>)
    requires FreshBatch(env, start, batch) && NeverGenesis(env.hash) && done <= batch
    ensures Run(env, Shipped(tr), t, start, done).Success?
    decreases |done|
  {
    hide ProcessCase, GoodOwing, NeverGenesis, QueueOfDone, AllHandled;
    if done != [] {
      var before, c := done[..|done| - 1], done[|done| - 1];
      assert done == before + [c] && batch[|before|] == c;
      RunCompletes(env, tr, t, start, batch, before);
      RunMakesProgress(env, tr, t, start, batch, before);
      var db := Run(env, Shipped(tr), t, start, before).value.0;
      NextCaseHasNoDebit(env, start, batch, db, before, c);
      FreshIsOneLive(env, start, batch);
      assert !InBatch(before, c.caseId);
      ProcessSucceeds(env, tr, t, db, c);
    }
  }
}
