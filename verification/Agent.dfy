/**
 The agent step over the stored tables (reclaim/flow.py): one write after another, each
 against the ledger the previous write left. A raise inside `Run` rolls the batch back.
 */
module Agent {
  import opened Wrappers
  import opened Vocabulary
  import opened Actions
  import opened Cases
  import opened Parties
  import opened PolicyFormat
  import opened PolicyEngine
  import opened PolicyRules
  import opened PolicyFacts
  import opened ShippedPolicy
  import opened AuditChain
  import opened SpineStore
  import D = Diagnosis
  import F = Flow
  import S = Spine

  method MoveTo(store: Store, id: CaseId, to: CaseState, u: FieldUpdates, at: Instant)
    returns (r: Result<RiskCase, S.SpineError>)
    modifies store
    ensures match F.AgentMove(store.env, old(store.View()), id, to, u, at)
            case Success(db) => store.View() == db && id in db.cases && r == Success(db.cases[id])
            case Failure(e) => r == Failure(e)
  {
    r := store.Transition(id, to, u, Agent, CaseStateChanged, at);
  }

  method Allow(store: Store, id: CaseId, d: D.Diagnosis, e: Envelope, at: Instant) returns (r: Result<nat, S.SpineError>)
    modifies store
    ensures match F.CarryOut(store.env, old(store.View()), id, d, e, at)
            case Success(done) => store.View() == done.0 && r == Success(done.1)
            case Failure(err) => r == Failure(err)
  {
    var item :- store.Enqueue(e);
    var planned :- MoveTo(store, id, Planned, DiagnosedAs(d.diagnosisId), at);
    var row :- store.Append(F.ScheduledBody(store.env, id, item.id, e, at));
    var scheduled :- MoveTo(store, id, Scheduled, NO_UPDATES, at);
    return Success(item.id);
  }

  method AwaitApproval(store: Store, id: CaseId, d: D.Diagnosis, e: Envelope, ids: seq<nat>, at: Instant)
    returns (r: Result<RiskCase, S.SpineError>)
    modifies store
    ensures match F.Park(store.env, old(store.View()), id, d, e, ids, at)
            case Success(db) => store.View() == db && r.Success?
            case Failure(err) => r == Failure(err)
  {
    var planned :- MoveTo(store, id, Planned, DiagnosedAs(d.diagnosisId), at);
    var row :- store.Append(Body(at, Some(id), ActorType.Agent, ApprovalRequested,
                                 ApprovalInputs(id, KeyOf(store.env.world.digest, e)), None, ids, None));
    r := MoveTo(store, id, AwaitingApproval, NO_UPDATES, at);
  }

  method CarryOutRuling(store: Store, id: CaseId, d: D.Diagnosis, e: Envelope, ruling: PolicyDecision,
                        hedged: bool, at: Instant) returns (r: Result<F.CaseResult, S.SpineError>)
    modifies store
    ensures match F.CarryOutRuling(store.env, old(store.View()), id, d, e, ruling, hedged, at)
            case Success(done) => store.View() == done.0 && r == Success(done.1)
            case Failure(err) => r == Failure(err)
  {
    if ruling.effect == PolicyEffect.Allow {
      var rowId :- Allow(store, id, d, e, at);
      return Success(F.CaseResult(id, at, F.Allowed, hedged, Some(rowId), Scheduled));
    }
    if ruling.effect == AllowWithApproval {
      var parked :- AwaitApproval(store, id, d, e, F.VerdictIds(ruling.verdicts), at);
      return Success(F.CaseResult(id, at, F.PendingApproval, hedged, None, AwaitingApproval));
    }
    var stopped :- MoveTo(store, id, Stopped, StopWith(PolicyBlocked, at), at);
    return Success(F.CaseResult(id, at, F.Denied, hedged, None, Stopped));
  }

  /** The bundle the step reads: two counts and one key lookup on the outbox. */
  method ReadContext(store: Store, t: Thresholds, c: RiskCase, o: Obligation, e: Envelope, at: Instant)
    returns (context: FactContext)
    ensures context == F.ContextFor(store.env.world, t, store.outbox, c, o, e, at)
  {
    var w := store.env.world;
    var debits, contacts := store.OutboxCounts(c);
    var key := KeyOf(w.digest, e);
    var found := store.FindKey(key);
    context := FactContext(c, o, at, t, w.consentOf(c.payerId), None, w.holdsOf(c), debits, contacts, contacts,
                           if found.Some? then {key} else {}, {});
  }

  method RuleOn(store: Store, rules: seq<PolicyRule>, t: Thresholds, c: RiskCase, o: Obligation, d: D.Diagnosis,
                e: Envelope, hedged: bool, at: Instant) returns (r: Result<F.CaseResult, S.SpineError>)
    modifies store
    ensures match F.RuleOn(store.env, rules, t, old(store.View()), c, o, d, e, hedged, at)
            case Success(done) => store.View() == done.0 && r == Success(done.1)
            case Failure(err) => r == Failure(err)
  {
    hide FactsFor, Evaluate, F.CarryOutRuling, F.ContextFor;
    var context := ReadContext(store, t, c, o, e, at);
    var facts := BuildFacts(store.env.world, e, context);
    var wellTyped := ValidateFacts(facts);
    assert wellTyped;
    var evaluated := EvaluateAction(rules, RequestFor(e, context), facts);
    if evaluated.Failure? {
      return Failure(S.PolicyRaised);
    }
    var decision := evaluated.value.decision;
    var row :- store.Append(F.JudgedBody(store.env, c.caseId, e, decision, at));
    r := CarryOutRuling(store, c.caseId, d, e, decision, hedged, at);
  }

  method Judge(store: Store, rules: seq<PolicyRule>, t: Thresholds, c: RiskCase, o: Obligation, d: D.Diagnosis,
               e: Envelope, hedged: bool, at: Instant) returns (r: Result<F.CaseResult, S.SpineError>)
    modifies store
    ensures match F.Judge(store.env, rules, t, old(store.View()), c, o, d, e, hedged, at)
            case Success(done) => store.View() == done.0 && r == Success(done.1)
            case Failure(err) => r == Failure(err)
  {
    hide F.RuleOn;
    if hedged && e.action.SendMessage? {
      var row :- store.Append(S.Note(at, c.caseId, ActorType.Agent, ContestedDiagnosisHedged,
                                     HedgeInputs(c.caseId, e.action.intent)));
    }
    r := RuleOn(store, rules, t, c, o, d, e, hedged, at);
  }

  method Act(store: Store, rules: seq<PolicyRule>, t: Thresholds, c: RiskCase, o: Obligation, d: D.Diagnosis, at: Instant)
    returns (r: Result<F.CaseResult, S.SpineError>)
    modifies store
    ensures match F.Act(store.env, rules, t, old(store.View()), c, o, d, at)
            case Success(done) => store.View() == done.0 && r == Success(done.1)
            case Failure(err) => r == Failure(err)
  {
    hide F.Judge, F.Route, F.HedgedRoute, F.AgentMove;
    var hedged := d.confidence < t.confidenceFloor;
    var proposal := if hedged then F.HedgedRoute(store.env.world, c, o, d) else F.Route(store.env.world, c, o, d, at);
    if proposal.Some? {
      r := Judge(store, rules, t, c, o, d, proposal.value, hedged, at);
      return;
    }
    var escalated :- MoveTo(store, c.caseId, Escalated, NO_UPDATES, at);
    return Success(F.CaseResult(c.caseId, at,
      if hedged then F.RoutedToHumanLowConfidence else F.RoutedToHumanNoRoute, false, None, Escalated));
  }

  method LeaveAlone(store: Store, c: RiskCase, at: Instant) returns (r: Result<F.CaseResult, S.SpineError>)
    modifies store
    ensures match F.LeaveAlone(store.env, old(store.View()), c, at)
            case Success(done) => store.View() == done.0 && r == Success(done.1)
            case Failure(err) => r == Failure(err)
  {
    var spec := ArmSpecOf(c.arm);
    var inputs := ArmInputs(c.caseId, c.arm);
    if !spec.takesAnyAction {
      var row :- store.Append(S.Note(at, c.caseId, System, ControlArmNoAction, inputs));
      return Success(F.CaseResult(c.caseId, at, F.ControlArmLeftAlone, false, None, c.state));
    }
    var outcome := if spec.policyEngineEnabled then F.BaselineLadderNotImplemented else F.SimulationOnlyArmSkipped;
    var row :- store.Append(S.Note(at, c.caseId, System, ArmNotRouted, inputs));
    return Success(F.CaseResult(c.caseId, at, outcome, false, None, c.state));
  }

  method Routed(store: Store, rules: seq<PolicyRule>, t: Thresholds, c: RiskCase, at: Instant)
    returns (r: Result<F.CaseResult, S.SpineError>)
    modifies store
    ensures match F.Routed(store.env, rules, t, old(store.View()), c, at)
            case Success(done) => store.View() == done.0 && r == Success(done.1)
            case Failure(err) => r == Failure(err)
  {
    hide F.Act, D.Diagnose;
    if c.obligationId !in store.obligations {
      return Failure(S.UnknownObligation);
    }
    var o, d := store.obligations[c.obligationId], D.Diagnose(c);
    var row :- store.Append(S.Note(at, c.caseId, ActorType.Agent, DiagnosisProduced,
                                   DiagnosisInputs(c.caseId, c.riskClass, c.declineClass)));
    var current :- MoveTo(store, c.caseId, Diagnosing, NO_UPDATES, at);
    r := Act(store, rules, t, current, o, d, at);
  }

  /** One case from its detected state to a verdict and its consequence. */
  method ProcessCase(store: Store, rules: seq<PolicyRule>, t: Thresholds, c: RiskCase)
    returns (r: Result<F.CaseResult, S.SpineError>)
    modifies store
    ensures match F.ProcessCase(store.env, rules, t, old(store.View()), c)
            case Success(done) => store.View() == done.0 && r == Success(done.1)
            case Failure(err) => r == Failure(err)
  {
    hide F.Routed, F.LeaveAlone;
    var at := c.detectedAt + F.PLANNING_LATENCY;
    if IsRoutingArm(c.arm) {
      r := Routed(store, rules, t, c, at);
    } else {
      r := LeaveAlone(store, c, at);
    }
  }

  /** The whole batch in one transaction: all of it, or none of it. */
  method Run(store: Store, rules: seq<PolicyRule>, t: Thresholds, batch: seq<RiskCase>)
    returns (r: Result<seq<F.CaseResult>, S.SpineError>)
    modifies store
    ensures match F.Run(store.env, rules, t, old(store.View()), batch)
            case Success(done) => store.View() == done.0 && r == Success(done.1)
            case Failure(err) => r == Failure(err) && store.View() == old(store.View())
  {
    hide F.ProcessCase;
    var obligations, cases, outbox, audit := store.obligations, store.cases, store.outbox, store.audit;
    var results: seq<F.CaseResult> := [];
    var i := 0;
    while i < |batch|
      invariant 0 <= i <= |batch|
      invariant F.Run(store.env, rules, t, old(store.View()), batch[..i]) == Success((store.View(), results))
    {
      assert batch[..i + 1][..i] == batch[..i];
      var result := ProcessCase(store, rules, t, batch[i]);
      if result.Failure? {
        RunAborts(store.env, rules, t, old(store.View()), batch, i + 1);
        store.obligations, store.cases, store.outbox, store.audit := obligations, cases, outbox, audit;
        return Failure(result.error);
      }
      results := results + [result.value];
      i := i + 1;
    }
    assert batch[..i] == batch;
    return Success(results);
  }

  /** Once a case of the batch fails the whole batch fails the same way. */
  lemma {:induction false} RunAborts(env: S.Env, rules: seq<PolicyRule>, t: Thresholds, db: S.DB, batch: seq<RiskCase>, n: nat)
    requires n <= |batch| && F.Run(env, rules, t, db, batch[..n]).Failure?
    ensures F.Run(env, rules, t, db, batch).Failure?
    ensures F.Run(env, rules, t, db, batch).error == F.Run(env, rules, t, db, batch[..n]).error
    decreases |batch|
  {
    hide F.ProcessCase;
    if n == |batch| {
      assert batch[..n] == batch;
    } else {
      assert batch[..|batch| - 1][..n] == batch[..n];
      RunAborts(env, rules, t, db, batch[..|batch| - 1], n);
    }
  }
}
