/**
 The agent step (reclaim/flow.py): route one action per root cause, let the policy
 engine rule on it, and carry the ruling out over the spine.
 */
module Flow {
  import opened Wrappers
  import opened Vocabulary
  import opened Actions
  import opened Cases
  import opened Parties
  import opened PolicyFormat
  import opened PolicyEngine
  import opened PolicyRules
  import opened PolicyFacts
  import opened ShippedPolicy
  import opened AuditChain
  import opened Spine
  import D = Diagnosis
  import Outbox

  const PLANNING_LATENCY := 300
  const RETRY_DELAY := 86_400
  const RETRY_ATTEMPT := 2

  datatype Outcome =
    | ControlArmLeftAlone
    | BaselineLadderNotImplemented
    | SimulationOnlyArmSkipped
    | RoutedToHumanLowConfidence
    | RoutedToHumanNoRoute
    | Denied
    | PendingApproval
    | Allowed

  datatype CaseResult = CaseResult(
    caseId: CaseId,
    evaluatedAt: Instant,
    outcome: Outcome,
    hedged: bool,
    outboxId: Option<nat>,
    finalState: CaseState)

  // ------------------------------------------------------------ routing

  function ContactChannel(s: Segment): Channel {
    if s.IsB2b() then Email else WhatsApp
  }

  function FillSlots(w: World, names: seq<SlotName>, c: RiskCase, o: Obligation): seq<Slot> {
    seq(|names|, i requires 0 <= i < |names| => Slot(names[i], w.slotText(names[i], c, o), false))
  }

  /** A templated contact, or nothing if no template is registered for the intent. */
  function Message(w: World, c: RiskCase, o: Obligation, intent: MessageIntent): Option<Envelope> {
    match TemplateFor(intent, EnIn)
    case None => None
    case Some(template) =>
      Some(Envelope(2 * c.caseId, c.caseId,
        SendMessage(ContactChannel(c.segment), template, EnIn, intent, FillSlots(w, SlotNamesOf(template), c, o))))
  }

  /** Re-present the debit a day later as attempt two, on a rail that needs no mandate. */
  function RetryDebit(c: RiskCase, at: Instant): Envelope {
    Envelope(2 * c.caseId + 1, c.caseId,
      ScheduleDebit(c.obligationId, CardOneTime, c.amountAtRisk, at + RETRY_DELAY, RETRY_ATTEMPT))
  }

  /** The one action a root cause calls for, or nothing, which means a human. */
  function Route(w: World, c: RiskCase, o: Obligation, d: D.Diagnosis, at: Instant): Option<Envelope> {
    if d.rootCause.ForbidsPaymentNudge() then None
    else
      match d.rootCause
      case H1TimingLiquidity => Some(RetryDebit(c, at))
      case H2CredentialLifecycle => Message(w, c, o, CredentialUpdateRequest)
      case H3MandateDeadOrPaused => Message(w, c, o, MandateReauthRequest)
      case H4AfaStepUpIncomplete => Message(w, c, o, AfaCompletionRequest)
      case H9B2bLiquidityOrWillfulDelay => Message(w, c, o, PaymentReminder)
      case _ => None
  }

  /** The one contact a diagnosis below the floor may still send. Never a debit. */
  function HedgedRoute(w: World, c: RiskCase, o: Obligation, d: D.Diagnosis): Option<Envelope> {
    if d.rootCause == UnknownCause then None
    else if d.alternatives == [] then None
    else if c.declineClass.Some? then Message(w, c, o, PaymentFailedInform)
    else if exists cause: RootCause :: cause in [d.rootCause] + d.alternatives && cause.ForbidsPaymentNudge() then None
    else Message(w, c, o, PaymentReminder)
  }

  function Proposal(w: World, t: Thresholds, c: RiskCase, o: Obligation, d: D.Diagnosis, at: Instant): Option<Envelope> {
    if d.confidence < t.confidenceFloor then HedgedRoute(w, c, o, d) else Route(w, c, o, d, at)
  }

  // ------------------------------------------------------------ what the step reads back

  function DebitCount(q: Outbox.Queue, o: ObligationId): nat {
    if q == [] then 0
    else
      var r := q[|q| - 1];
      DebitCount(q[..|q| - 1], o)
      + (if r.coordinates.Some? && r.coordinates.value.0 == o && r.actionType == ScheduleDebitType then 1 else 0)
  }

  function ContactCount(q: Outbox.Queue, id: CaseId): nat {
    if q == [] then 0
    else
      var r := q[|q| - 1];
      ContactCount(q[..|q| - 1], id) + (if r.caseId == id && r.actionType == SendMessageType then 1 else 0)
  }

  function UsedKeys(q: Outbox.Queue, key: IdempotencyKey): set<IdempotencyKey> {
    if Outbox.IndexOfKey(q, key).Some? then {key} else {}
  }

  /** The outbox has no channel column, so one count serves both frequency facts. */
  function ContextFor(w: World, t: Thresholds, q: Outbox.Queue, c: RiskCase, o: Obligation,
                      e: Envelope, at: Instant): FactContext
  {
    var contacts := ContactCount(q, c.caseId);
    FactContext(c, o, at, t, w.consentOf(c.payerId), None, w.holdsOf(c), DebitCount(q, c.obligationId),
                contacts, contacts, UsedKeys(q, KeyOf(w.digest, e)), {})
  }

  function VerdictIds(vs: seq<PolicyVerdict>): seq<nat> {
    seq(|vs|, i requires 0 <= i < |vs| => vs[i].ruleId)
  }

  // ------------------------------------------------------------ carrying it out

  function AgentMove(env: Env, db: DB, id: CaseId, to: CaseState, u: FieldUpdates, at: Instant): Result<DB, SpineError> {
    Transition(env, db, id, to, u, Agent, CaseStateChanged, at)
  }

  function ScheduledBody(env: Env, id: CaseId, rowId: nat, e: Envelope, at: Instant): Body {
    Body(at, Some(id), Agent, ActionScheduled, ScheduledInputs(id, rowId, e.actionId), Some(e), [],
         Some(KeyOf(env.world.digest, e)))
  }

  /** Allowed: enqueue, plan, record the action under its key, schedule. */
  function CarryOut(env: Env, db: DB, id: CaseId, d: D.Diagnosis, e: Envelope, at: Instant): Result<(DB, nat), SpineError> {
    var queued :- Enqueue(env, db, e);
    var planned :- AgentMove(env, queued.0, id, Planned, DiagnosedAs(d.diagnosisId), at);
    var recorded :- Log(env, planned, ScheduledBody(env, id, queued.1.id, e, at));
    var scheduled :- AgentMove(env, recorded, id, Scheduled, NO_UPDATES, at);
    Success((scheduled, queued.1.id))
  }

  /** Allowed subject to approval: nothing is enqueued, a human owns the case. */
  function Park(env: Env, db: DB, id: CaseId, d: D.Diagnosis, e: Envelope, ids: seq<nat>, at: Instant): Result<DB, SpineError> {
    var planned :- AgentMove(env, db, id, Planned, DiagnosedAs(d.diagnosisId), at);
    var requested :- Log(env, planned,
      Body(at, Some(id), Agent, ApprovalRequested, ApprovalInputs(id, KeyOf(env.world.digest, e)), None, ids, None));
    AgentMove(env, requested, id, AwaitingApproval, NO_UPDATES, at)
  }

  function CarryOutRuling(env: Env, db: DB, id: CaseId, d: D.Diagnosis, e: Envelope, ruling: PolicyDecision,
                          hedged: bool, at: Instant): Result<(DB, CaseResult), SpineError>
  {
    if ruling.effect == Allow then
      var done :- CarryOut(env, db, id, d, e, at);
      Success((done.0, CaseResult(id, at, Allowed, hedged, Some(done.1), Scheduled)))
    else if ruling.effect == AllowWithApproval then
      var done :- Park(env, db, id, d, e, VerdictIds(ruling.verdicts), at);
      Success((done, CaseResult(id, at, PendingApproval, hedged, None, AwaitingApproval)))
    else
      var done :- AgentMove(env, db, id, Stopped, StopWith(PolicyBlocked, at), at);
      Success((done, CaseResult(id, at, Denied, hedged, None, Stopped)))
  }

  /** The hedge is on the record before the engine rules, whatever it rules. */
  function NoteHedge(env: Env, db: DB, id: CaseId, e: Envelope, hedged: bool, at: Instant): Result<DB, SpineError> {
    if hedged && e.action.SendMessage?
    then Log(env, db, Note(at, id, Agent, ContestedDiagnosisHedged, HedgeInputs(id, e.action.intent)))
    else Success(db)
  }

  function JudgedBody(env: Env, id: CaseId, e: Envelope, ruling: PolicyDecision, at: Instant): Body {
    Body(at, Some(id), Agent, PolicyEvaluated, PolicyInputs(id, KeyOf(env.world.digest, e)), None,
         VerdictIds(ruling.verdicts), None)
  }

  /** Build the facts, evaluate, record the evaluation, carry the ruling out. */
  function RuleOn(env: Env, rules: seq<PolicyRule>, t: Thresholds, db: DB, c: RiskCase, o: Obligation, d: D.Diagnosis,
                  e: Envelope, hedged: bool, at: Instant): Result<(DB, CaseResult), SpineError>
  {
    var context := ContextFor(env.world, t, db.outbox, c, o, e, at);
    match Evaluate(rules, RequestFor(e, context), FactsFor(env.world, e, context))
    case Failure(_) => Failure(PolicyRaised)
    case Success(evaluation) =>
      var judged :- Log(env, db, JudgedBody(env, c.caseId, e, evaluation.decision, at));
      CarryOutRuling(env, judged, c.caseId, d, e, evaluation.decision, hedged, at)
  }

  function Judge(env: Env, rules: seq<PolicyRule>, t: Thresholds, db: DB, c: RiskCase, o: Obligation, d: D.Diagnosis,
                 e: Envelope, hedged: bool, at: Instant): Result<(DB, CaseResult), SpineError>
  {
    var noted :- NoteHedge(env, db, c.caseId, e, hedged, at);
    RuleOn(env, rules, t, noted, c, o, d, e, hedged, at)
  }

  function Begin(env: Env, db: DB, c: RiskCase, at: Instant): (r: Result<DB, SpineError>)
    ensures r.Success? ==> c.caseId in db.cases && c.caseId in r.value.cases
  {
    var diagnosed :- Log(env, db, Note(at, c.caseId, Agent, DiagnosisProduced,
                                       DiagnosisInputs(c.caseId, c.riskClass, c.declineClass)));
    AgentMove(env, diagnosed, c.caseId, Diagnosing, NO_UPDATES, at)
  }

  /** Judge the proposal, or hand the case to a human when there is none. */
  function Act(env: Env, rules: seq<PolicyRule>, t: Thresholds, db: DB, c: RiskCase, o: Obligation, d: D.Diagnosis,
               at: Instant): Result<(DB, CaseResult), SpineError>
  {
    var hedged := d.confidence < t.confidenceFloor;
    match Proposal(env.world, t, c, o, d, at)
    case Some(e) => Judge(env, rules, t, db, c, o, d, e, hedged, at)
    case None =>
      var escalated :- AgentMove(env, db, c.caseId, Escalated, NO_UPDATES, at);
      Success((escalated, CaseResult(c.caseId, at,
        if hedged then RoutedToHumanLowConfidence else RoutedToHumanNoRoute, false, None, Escalated)))
  }

  /** The diagnosis reads the case as given; everything after it reads the ledger's. */
  function Routed(env: Env, rules: seq<PolicyRule>, t: Thresholds, db: DB, c: RiskCase,
                  at: Instant): Result<(DB, CaseResult), SpineError>
  {
    if c.obligationId !in db.obligations then Failure(UnknownObligation)
    else
      var started :- Begin(env, db, c, at);
      Act(env, rules, t, started, started.cases[c.caseId], db.obligations[c.obligationId], D.Diagnose(c), at)
  }

  /** The arms that do not route leave the case alone and say so in the log. */
  function LeaveAlone(env: Env, db: DB, c: RiskCase, at: Instant): Result<(DB, CaseResult), SpineError> {
    var spec := ArmSpecOf(c.arm);
    var event := if spec.takesAnyAction then ArmNotRouted else ControlArmNoAction;
    var outcome :=
      if !spec.takesAnyAction then ControlArmLeftAlone
      else if spec.policyEngineEnabled then BaselineLadderNotImplemented
      else SimulationOnlyArmSkipped;
    var logged :- Log(env, db, Note(at, c.caseId, System, event, ArmInputs(c.caseId, c.arm)));
    Success((logged, CaseResult(c.caseId, at, outcome, false, None, c.state)))
  }

  function ProcessCase(env: Env, rules: seq<PolicyRule>, t: Thresholds, db: DB,
                       c: RiskCase): Result<(DB, CaseResult), SpineError>
  {
    var at := c.detectedAt + PLANNING_LATENCY;
    if IsRoutingArm(c.arm) then Routed(env, rules, t, db, c, at) else LeaveAlone(env, db, c, at)
  }

  /** Every case in the order given; the first failure aborts the batch. */
  function Run(env: Env, rules: seq<PolicyRule>, t: Thresholds, db: DB,
               batch: seq<RiskCase>): Result<(DB, seq<CaseResult>), SpineError>
  {
    if batch == [] then Success((db, []))
    else
      var earlier :- Run(env, rules, t, db, batch[..|batch| - 1]);
      var last :- ProcessCase(env, rules, t, earlier.0, batch[|batch| - 1]);
      Success((last.0, earlier.1 + [last.1]))
  }
}
