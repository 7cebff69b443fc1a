/**
 The agent step told once (reclaim/flow.py): which action a diagnosis calls for, what the
 step reads, and everything it leaves in the four tables, without the router, the engine
 or the single writes it is made of.
 */
module AgentStep {
  import opened Wrappers
  import opened Vocabulary
  import opened Actions
  import opened Cases
  import opened Parties
  import opened PolicyFormat
  import opened PolicyEngine
  import opened PolicyRules
  import opened PolicyFacts
  import opened ShippedPolicy
  import opened AuditChain
  import opened Spine
  import opened Flow
  import opened FlowSafety
  import D = Diagnosis
  import Outbox

  // ------------------------------------------------------------ what a diagnosis calls for

  predicate NoPaymentNudge(cause: RootCause) {
    cause in {H5DeliberateChurnIntent, H6OurSideSystemic, H7CommercialDispute}
  }

  /** Nothing is proposed, and a human gets the case: above the floor for a cause without a
      verb; below it for a blank or uncontested diagnosis, and, when no debit failed, if
      any cause on the table forbids asking for money. */
  predicate CallsForNothing(d: D.Diagnosis, c: RiskCase, floor: Micros) {
    if d.confidence >= floor then
      NoPaymentNudge(d.rootCause) || d.rootCause in {H8B2bProcessDefect, UnknownCause}
    else
      || d.rootCause == UnknownCause || |d.alternatives| == 0
      || (c.declineClass.None?
          && (NoPaymentNudge(d.rootCause) || exists cause :: cause in d.alternatives && NoPaymentNudge(cause)))
  }

  /** Each intent against the one kind of diagnosis that calls for it. */
  predicate IntentFits(d: D.Diagnosis, c: RiskCase, floor: Micros, intent: MessageIntent) {
    var sure := d.confidence >= floor;
    && (intent == CredentialUpdateRequest <==> sure && d.rootCause == H2CredentialLifecycle)
    && (intent == MandateReauthRequest <==> sure && d.rootCause == H3MandateDeadOrPaused)
    && (intent == AfaCompletionRequest <==> sure && d.rootCause == H4AfaStepUpIncomplete)
    && (intent == PaymentReminder <==> if sure then d.rootCause == H9B2bLiquidityOrWillfulDelay else c.declineClass.None?)
    && (intent == PaymentFailedInform <==> !sure && c.declineClass.Some?)
  }

  predicate ChannelFits(segment: Segment, channel: Channel) {
    && (channel == WhatsApp <==> segment in {B2cStandard, B2cPremium})
    && (channel == Email <==> segment in {B2bSmb, B2bMidMarket, B2bEnterprise, B2bStrategic})
  }

  predicate TemplateFits(intent: MessageIntent, template: TemplateId) {
    && (template == TplCredentialUpdate <==> intent == CredentialUpdateRequest)
    && (template == TplMandateReauth <==> intent == MandateReauthRequest)
    && (template == TplAfaCompletion <==> intent == AfaCompletionRequest)
    && (template == TplPaymentReminder <==> intent == PaymentReminder)
    && (template == TplPaymentFailedInform <==> intent == PaymentFailedInform)
    && !template.TplUnregistered?
  }

  /** The slots of each template, alphabetically, with nothing typed in by hand. */
  predicate SlotsFit(w: World, c: RiskCase, o: Obligation, intent: MessageIntent, slots: seq<Slot>) {
    var names :=
      if intent == CredentialUpdateRequest then [AmountDue, MerchantName, UpdateLink]
      else if intent == MandateReauthRequest then [AmountDue, MerchantName, ReauthLink]
      else if intent == AfaCompletionRequest then [AfaLink, AmountDue, MerchantName]
      else if intent == PaymentReminder then [AmountDue, DueDate, MerchantName]
      else [AfaLink, AmountDue, MerchantName, UpdateLink];
    |slots| == |names| && forall i :: 0 <= i < |names| ==> slots[i] == Slot(names[i], w.slotText(names[i], c, o), false)
  }

  /** The one action the diagnosis calls for, down to every parameter. */
  predicate RightAction(w: World, floor: Micros, c: RiskCase, o: Obligation, d: D.Diagnosis, at: Instant, e: Envelope) {
    if d.confidence >= floor && d.rootCause == H1TimingLiquidity then
      e == Envelope(2 * c.caseId + 1, c.caseId,
                    ScheduleDebit(c.obligationId, CardOneTime, c.amountAtRisk, at + 86_400, 2))
    else
      && e.actionId == 2 * c.caseId && e.caseId == c.caseId && e.action.SendMessage? && e.action.language == EnIn
      && ChannelFits(c.segment, e.action.channel) && IntentFits(d, c, floor, e.action.intent)
      && TemplateFits(e.action.intent, e.action.templateId) && SlotsFit(w, c, o, e.action.intent, e.action.slots)
  }

  lemma MessageIsRight(w: World, c: RiskCase, o: Obligation, intent: MessageIntent, e: Envelope)
    requires intent in {CredentialUpdateRequest, MandateReauthRequest, AfaCompletionRequest, PaymentReminder, PaymentFailedInform}
    ensures Message(w, c, o, intent) == Some(e) <==>
              && e.actionId == 2 * c.caseId && e.caseId == c.caseId && e.action.SendMessage? && e.action.language == EnIn
              && ChannelFits(c.segment, e.action.channel) && e.action.intent == intent
              && TemplateFits(intent, e.action.templateId) && SlotsFit(w, c, o, intent, e.action.slots)
  {
    var template := TemplateFor(intent, EnIn).value;
    var slots := FillSlots(w, SlotNamesOf(template), c, o);
    assert SlotsFit(w, c, o, intent, slots);
    if e.action.SendMessage? && SlotsFit(w, c, o, intent, e.action.slots) {
      assert e.action.slots == slots;
    }
  }

  lemma ForbiddenNudge(cause: RootCause)
    ensures cause.ForbidsPaymentNudge() <==> NoPaymentNudge(cause)
  {
  }

  /** What is called for above the floor. */
  lemma RouteExactly(w: World, floor: Micros, c: RiskCase, o: Obligation, d: D.Diagnosis, at: Instant, e: Envelope)
    requires d.confidence >= floor
    ensures Route(w, c, o, d, at).None? <==> CallsForNothing(d, c, floor)
    ensures Route(w, c, o, d, at) == Some(e) <==> !CallsForNothing(d, c, floor) && RightAction(w, floor, c, o, d, at, e)
  {
    hide Message, ChannelFits, TemplateFits, SlotsFit;
    MessageIsRight(w, c, o, CredentialUpdateRequest, e);
    MessageIsRight(w, c, o, MandateReauthRequest, e);
    MessageIsRight(w, c, o, AfaCompletionRequest, e);
    MessageIsRight(w, c, o, PaymentReminder, e);
    RegisteredMessages(w, c, o);
  }

  lemma RegisteredMessages(w: World, c: RiskCase, o: Obligation)
    ensures Message(w, c, o, CredentialUpdateRequest).Some? && Message(w, c, o, MandateReauthRequest).Some?
    ensures Message(w, c, o, AfaCompletionRequest).Some? && Message(w, c, o, PaymentReminder).Some?
    ensures Message(w, c, o, PaymentFailedInform).Some?
  {
  }

  /** And below it. */
  lemma HedgeExactly(w: World, floor: Micros, c: RiskCase, o: Obligation, d: D.Diagnosis, at: Instant, e: Envelope)
    requires d.confidence < floor
    ensures HedgedRoute(w, c, o, d).None? <==> CallsForNothing(d, c, floor)
    ensures HedgedRoute(w, c, o, d) == Some(e) <==> !CallsForNothing(d, c, floor) && RightAction(w, floor, c, o, d, at, e)
  {
    hide Message, ChannelFits, TemplateFits, SlotsFit;
    MessageIsRight(w, c, o, PaymentFailedInform, e);
    MessageIsRight(w, c, o, PaymentReminder, e);
    RegisteredMessages(w, c, o);
    var all := [d.rootCause] + d.alternatives;
    assert (exists cause: RootCause :: cause in all && cause.ForbidsPaymentNudge())
      <==> NoPaymentNudge(d.rootCause) || exists cause :: cause in d.alternatives && NoPaymentNudge(cause) by {
      assert d.rootCause in all;
      if cause :| cause in d.alternatives && NoPaymentNudge(cause) {
        assert cause in all;
      }
    }
  }

  /** The router and its hedge propose exactly the action called for, and nothing exactly
      when nothing is. */
  lemma ProposalExactly(w: World, t: Thresholds, c: RiskCase, o: Obligation, d: D.Diagnosis, at: Instant, e: Envelope)
    ensures Proposal(w, t, c, o, d, at).None? <==> CallsForNothing(d, c, t.confidenceFloor)
    ensures Proposal(w, t, c, o, d, at) == Some(e) <==>
              !CallsForNothing(d, c, t.confidenceFloor) && RightAction(w, t.confidenceFloor, c, o, d, at, e)
  {
    hide Route, HedgedRoute, RightAction, CallsForNothing;
    if d.confidence < t.confidenceFloor {
      HedgeExactly(w, t.confidenceFloor, c, o, d, at, e);
    } else {
      RouteExactly(w, t.confidenceFloor, c, o, d, at, e);
    }
  }

  // ------------------------------------------------------------ what the step reads

  /** The queued debits of an obligation. */
  function DebitsOn(q: Outbox.Queue, o: ObligationId): set<nat> {
    set i | 0 <= i < |q| && q[i].envelope.action.ScheduleDebit? && q[i].envelope.action.obligationId == o
  }

  /** The queued messages of a case. */
  function MessagesOf(q: Outbox.Queue, id: CaseId): set<nat> {
    set i | 0 <= i < |q| && q[i].caseId == id && q[i].envelope.action.SendMessage?
  }

  lemma OneMoreDebit(q: Outbox.Queue, r: Outbox.OutboxRow, o: ObligationId)
    ensures |DebitsOn(q + [r], o)|
         == |DebitsOn(q, o)| + (if r.envelope.action.ScheduleDebit? && r.envelope.action.obligationId == o then 1 else 0)
  {
    var more := q + [r];
    assert forall i :: 0 <= i < |q| ==> more[i] == q[i];
    if r.envelope.action.ScheduleDebit? && r.envelope.action.obligationId == o {
      assert DebitsOn(more, o) == DebitsOn(q, o) + {|q|};
    } else {
      assert DebitsOn(more, o) == DebitsOn(q, o);
    }
  }

  lemma OneMoreMessage(q: Outbox.Queue, r: Outbox.OutboxRow, id: CaseId)
    ensures |MessagesOf(q + [r], id)|
         == |MessagesOf(q, id)| + (if r.caseId == id && r.envelope.action.SendMessage? then 1 else 0)
  {
    var more := q + [r];
    assert forall i :: 0 <= i < |q| ==> more[i] == q[i];
    if r.caseId == id && r.envelope.action.SendMessage? {
      assert MessagesOf(more, id) == MessagesOf(q, id) + {|q|};
    } else {
      assert MessagesOf(more, id) == MessagesOf(q, id);
    }
  }

  /** The two `COUNT(*)` queries count those rows. */
  lemma {:induction false} RowsAreCounted(digest: ScopeDigest, q: Outbox.Queue, o: ObligationId, id: CaseId)
    requires Outbox.AllShadow(digest, q)
    ensures DebitCount(q, o) == |DebitsOn(q, o)|
    ensures ContactCount(q, id) == |MessagesOf(q, id)|
  {
    hide DebitsOn, MessagesOf;
    var n := |q| - 1;
    if q == [] {
      NothingCounted(o, id);
    } else {
      RowsAreCounted(digest, q[..n], o, id);
      assert Outbox.ShadowsEnvelope(digest, q[n]);
      assert q == q[..n] + [q[n]];
      OneMoreDebit(q[..n], q[n], o);
      OneMoreMessage(q[..n], q[n], id);
    }
  }

  lemma NothingCounted(o: ObligationId, id: CaseId)
    ensures |DebitsOn([], o)| == 0 && |MessagesOf([], id)| == 0
  {
    assert DebitsOn([], o) == {} && MessagesOf([], id) == {};
  }

  predicate Queued(q: Outbox.Queue, key: IdempotencyKey) {
    exists i :: 0 <= i < |q| && q[i].key == key
  }

  function KeyFor(w: World, e: Envelope): IdempotencyKey {
    IdempotencyKey(if e.action.ScheduleDebit? then ScheduleDebitType else SendMessageType, w.digest(e.caseId, e.action))
  }

  /** The bundle the policy is asked with: the payer's own consent and holds, no mandate and
      no declared holiday, and three readings of the outbox as it stands. */
  function Reading(w: World, t: Thresholds, q: Outbox.Queue, c: RiskCase, o: Obligation, e: Envelope, at: Instant): FactContext {
    FactContext(c, o, at, t, w.consentOf(c.payerId), None, w.holdsOf(c),
                |DebitsOn(q, c.obligationId)|, |MessagesOf(q, c.caseId)|, |MessagesOf(q, c.caseId)|,
                if Queued(q, KeyFor(w, e)) then {KeyFor(w, e)} else {}, {})
  }

  lemma ReadingExactly(w: World, t: Thresholds, q: Outbox.Queue, c: RiskCase, o: Obligation, e: Envelope, at: Instant)
    requires Outbox.AllShadow(w.digest, q)
    ensures ContextFor(w, t, q, c, o, e, at) == Reading(w, t, q, c, o, e, at)
  {
    hide Outbox.AllShadow, DebitCount, ContactCount, DebitsOn, MessagesOf;
    RowsAreCounted(w.digest, q, c.obligationId, c.caseId);
    assert KeyOf(w.digest, e) == KeyFor(w, e);
  }

  // ------------------------------------------------------------ what the step writes

  /** The log grew by rows with these bodies. */
  predicate Appends(a: seq<AuditRow>, b: seq<AuditRow>, bodies: seq<Body>) {
    && |b| == |a| + |bodies| && a == b[..|a|]
    && forall i :: 0 <= i < |bodies| ==> b[|a| + i].body == bodies[i]
  }

  /** All that changed: one case record, some new outbox rows, some new log rows. */
  predicate Wrote(a: DB, b: DB, id: CaseId, record: RiskCase, queued: Outbox.Queue, told: seq<Body>) {
    && id in a.cases && b.cases == a.cases[id := record] && b.obligations == a.obligations
    && b.outbox == a.outbox + queued && Appends(a.audit, b.audit, told)
  }

  lemma AppendsTwice(a: seq<AuditRow>, b: seq<AuditRow>, c: seq<AuditRow>, xs: seq<Body>, ys: seq<Body>)
    requires Appends(a, b, xs) && Appends(b, c, ys)
    ensures Appends(a, c, xs + ys)
  {
    assert c[..|b|][..|a|] == c[..|a|];
    forall i | 0 <= i < |xs + ys| ensures c[|a| + i].body == (xs + ys)[i] {
      if i < |xs| {
        assert c[..|b|][|a| + i] == b[|a| + i];
      } else {
        assert c[|b| + (i - |xs|)].body == ys[i - |xs|];
      }
    }
  }

  lemma WroteTwice(a: DB, b: DB, c: DB, id: CaseId, x: RiskCase, y: RiskCase, q: Outbox.Queue, r: Outbox.Queue,
                   xs: seq<Body>, ys: seq<Body>)
    requires Wrote(a, b, id, x, q, xs) && Wrote(b, c, id, y, r, ys)
    ensures Wrote(a, c, id, y, q + r, xs + ys)
  {
    AppendsTwice(a.audit, b.audit, c.audit, xs, ys);
    assert a.outbox + q + r == a.outbox + (q + r);
  }

  /** A row the agent writes about a case: no tool call, no key, no rules. */
  function Said(at: Instant, id: CaseId, event: EventType, inputs: Inputs): Body {
    Body(at, Some(id), Agent, event, inputs, None, [], None)
  }

  function Went(at: Instant, id: CaseId, from: CaseState, to: CaseState): Body {
    Said(at, id, CaseStateChanged, MoveInputs(id, from, to))
  }

  lemma LogWrote(env: Env, db: DB, id: CaseId, body: Body)
    requires ChainGood(env, db) && id in db.cases && Log(env, db, body).Success?
    ensures Wrote(db, Log(env, db, body).value, id, db.cases[id], [], [body])
  {
    hide ValidChain, RowValid, BodyValid;
    LogAppends(env, db, body);
    assert db.cases == db.cases[id := db.cases[id]];
    assert db.outbox + [] == db.outbox;
  }

  function MovedRecord(c: RiskCase, to: CaseState, u: FieldUpdates): RiskCase {
    c.(state := to,
       activePlanId := Given(u.activePlanId, c.activePlanId), activeDiagnosisId := Given(u.activeDiagnosisId, c.activeDiagnosisId),
       stopReason := Given(u.stopReason, c.stopReason), stoppedAt := Given(u.stoppedAt, c.stoppedAt))
  }

  lemma MoveWrote(env: Env, db: DB, id: CaseId, to: CaseState, u: FieldUpdates, at: Instant)
    requires CasesGood(db) && ChainGood(env, db) && AgentMove(env, db, id, to, u, at).Success?
    ensures id in db.cases
    ensures Wrote(db, AgentMove(env, db, id, to, u, at).value, id, MovedRecord(db.cases[id], to, u), [],
                  [Went(at, id, db.cases[id].state, to)])
  {
    hide CasesGood, ChainGood, Transition;
    TransitionWrites(env, db, id, to, u, Agent, CaseStateChanged, at);
    assert db.outbox + [] == db.outbox;
  }

  lemma GoodLogAndCases(env: Env, db: DB, owed: seq<IdempotencyKey>)
    requires GoodOwing(env, db, owed)
    ensures CasesGood(db) && ChainGood(env, db) && Outbox.AllShadow(env.world.digest, db.outbox)
  {
  }

  /** Allowed: the row, the plan, the action row under its key, the schedule. */
  lemma CarryOutWrote(env: Env, db: DB, id: CaseId, d: D.Diagnosis, e: Envelope, at: Instant)
    requires Good(env, db) && CarryOut(env, db, id, d, e, at).Success?
    requires !Queued(db.outbox, KeyFor(env.world, e))
    requires e.caseId == id && id in db.cases && db.cases[id].state == Diagnosing && HasNoAction(db.outbox, id)
    ensures var (db', rowId) := CarryOut(env, db, id, d, e, at).value;
            && rowId == Outbox.NextId(db.outbox)
            && Wrote(db, db', id, db.cases[id].(state := Scheduled, activeDiagnosisId := Some(d.diagnosisId)),
                     [Outbox.FreshRow(env.world.digest, rowId, e)],
                     [Went(at, id, Diagnosing, Planned),
                      Body(at, Some(id), Agent, ActionScheduled, ScheduledInputs(id, rowId, e.actionId), Some(e), [],
                           Some(KeyFor(env.world, e))),
                      Went(at, id, Planned, Scheduled)])
  {
    hide Log, Transition, Enqueue, GoodOwing, Touches, HasNoAction, CasesGood, ChainGood, Appends;
    assert Outbox.IndexOfKey(db.outbox, KeyOf(env.world.digest, e)).None?;
    EnqueueOwesItsKey(env, db, e);
    var (queued, row) := Enqueue(env, db, e).value;
    var u := DiagnosedAs(d.diagnosisId);
    MoveKeepsGood(env, queued, id, Planned, u, Agent, CaseStateChanged, at, [row.key]);
    var planned := AgentMove(env, queued, id, Planned, u, at).value;
    ActionRowSettles(env, planned, id, row.id, e, at);
    var body := ScheduledBody(env, id, row.id, e, at);
    var recorded := Log(env, planned, body).value;
    GoodLogAndCases(env, queued, [row.key]);
    GoodLogAndCases(env, planned, [row.key]);
    GoodLogAndCases(env, recorded, []);
    RowWrote(db, row, id);
    MoveWrote(env, queued, id, Planned, u, at);
    LogWrote(env, planned, id, body);
    MoveWrote(env, recorded, id, Scheduled, NO_UPDATES, at);
    var scheduled := AgentMove(env, recorded, id, Scheduled, NO_UPDATES, at).value;
    var c := planned.cases[id];
    WroteTwice(db, queued, planned, id, db.cases[id], c, [row], [], [], [Went(at, id, Diagnosing, Planned)]);
    WroteTwice(db, planned, recorded, id, c, c, [row] + [], [], [] + [Went(at, id, Diagnosing, Planned)], [body]);
    WroteTwice(db, recorded, scheduled, id, c, c.(state := Scheduled), [row] + [] + [], [],
               [] + [Went(at, id, Diagnosing, Planned)] + [body], [Went(at, id, Planned, Scheduled)]);
    assert [row] + [] + [] + [] == [row];
    assert [] + [Went(at, id, Diagnosing, Planned)] + [body] + [Went(at, id, Planned, Scheduled)]
        == [Went(at, id, Diagnosing, Planned), body, Went(at, id, Planned, Scheduled)];
  }

  lemma RowWrote(db: DB, row: Outbox.OutboxRow, id: CaseId)
    requires id in db.cases
    ensures Wrote(db, WithRow(db, row), id, db.cases[id], [row], [])
  {
    assert db.cases == db.cases[id := db.cases[id]];
    assert db.audit == db.audit[..|db.audit|];
  }

  /** Subject to approval: the plan, the request with the rules that asked, the parking. */
  lemma ParkWrote(env: Env, db: DB, id: CaseId, d: D.Diagnosis, e: Envelope, ids: seq<nat>, at: Instant)
    requires Good(env, db) && Park(env, db, id, d, e, ids, at).Success?
    requires id in db.cases && db.cases[id].state == Diagnosing
    ensures Wrote(db, Park(env, db, id, d, e, ids, at).value, id,
                  db.cases[id].(state := AwaitingApproval, activeDiagnosisId := Some(d.diagnosisId)), [],
                  [Went(at, id, Diagnosing, Planned),
                   Body(at, Some(id), Agent, ApprovalRequested, ApprovalInputs(id, KeyFor(env.world, e)), None, ids, None),
                   Went(at, id, Planned, AwaitingApproval)])
  {
    hide Log, Transition, GoodOwing, Touches, CasesGood, ChainGood, Appends;
    var u := DiagnosedAs(d.diagnosisId);
    MoveKeepsGood(env, db, id, Planned, u, Agent, CaseStateChanged, at, []);
    var planned := AgentMove(env, db, id, Planned, u, at).value;
    var body := Body(at, Some(id), Agent, ApprovalRequested, ApprovalInputs(id, KeyOf(env.world.digest, e)), None, ids, None);
    QuietLogKeepsGood(env, planned, body, id);
    var requested := Log(env, planned, body).value;
    GoodLogAndCases(env, db, []);
    GoodLogAndCases(env, planned, []);
    GoodLogAndCases(env, requested, []);
    MoveWrote(env, db, id, Planned, u, at);
    LogWrote(env, planned, id, body);
    MoveWrote(env, requested, id, AwaitingApproval, NO_UPDATES, at);
    var c := planned.cases[id];
    WroteTwice(db, planned, requested, id, c, c, [], [], [Went(at, id, Diagnosing, Planned)], [body]);
    WroteTwice(db, requested, Park(env, db, id, d, e, ids, at).value, id, c, c.(state := AwaitingApproval), [] + [], [],
               [Went(at, id, Diagnosing, Planned)] + [body], [Went(at, id, Planned, AwaitingApproval)]);
    assert [Went(at, id, Diagnosing, Planned)] + [body] + [Went(at, id, Planned, AwaitingApproval)]
        == [Went(at, id, Diagnosing, Planned), body, Went(at, id, Planned, AwaitingApproval)];
  }

  function FreshId(q: Outbox.Queue): nat {
    if |q| == 0 then 1 else 1 + q[|q| - 1].id
  }

  /** A ruling carried out on a case, after what was told already. */
  predicate Carried(env: Env, db: DB, db': DB, id: CaseId, e: Envelope, effect: PolicyEffect, ids: seq<nat>,
                    hedged: bool, told: seq<Body>, at: Instant, r: CaseResult)
  {
    && id in db.cases
    && var c, key, rowId := db.cases[id], KeyFor(env.world, e), FreshId(db.outbox);
       match effect {
         case Allow =>
           && Wrote(db, db', id, c.(state := Scheduled, activeDiagnosisId := Some(id)),
                    [Outbox.FreshRow(env.world.digest, rowId, e)],
                    told + [Went(at, id, Diagnosing, Planned),
                            Body(at, Some(id), Agent, ActionScheduled, ScheduledInputs(id, rowId, e.actionId), Some(e), [], Some(key)),
                            Went(at, id, Planned, Scheduled)])
           && r == CaseResult(id, at, Allowed, hedged, Some(rowId), Scheduled)
         case AllowWithApproval =>
           && Wrote(db, db', id, c.(state := AwaitingApproval, activeDiagnosisId := Some(id)), [],
                    told + [Went(at, id, Diagnosing, Planned),
                            Body(at, Some(id), Agent, ApprovalRequested, ApprovalInputs(id, key), None, ids, None),
                            Went(at, id, Planned, AwaitingApproval)])
           && r == CaseResult(id, at, PendingApproval, hedged, None, AwaitingApproval)
         case _ =>
           && Wrote(db, db', id, c.(state := Stopped, stopReason := Some(PolicyBlocked), stoppedAt := Some(at)), [],
                    told + [Went(at, id, Diagnosing, Stopped)])
           && r == CaseResult(id, at, Denied, hedged, None, Stopped)
       }
  }

  lemma CarryOutRulingWrote(env: Env, db: DB, id: CaseId, d: D.Diagnosis, e: Envelope, ruling: PolicyDecision,
                            hedged: bool, at: Instant)
    requires Good(env, db) && CarryOutRuling(env, db, id, d, e, ruling, hedged, at).Success?
    requires ruling.effect == Allow ==> !Queued(db.outbox, KeyFor(env.world, e))
    requires d.diagnosisId == id && e.caseId == id && id in db.cases && db.cases[id].state == Diagnosing
    requires HasNoAction(db.outbox, id)
    ensures var (db', r) := CarryOutRuling(env, db, id, d, e, ruling, hedged, at).value;
            Carried(env, db, db', id, e, ruling.effect, VerdictIds(ruling.verdicts), hedged, [], at, r)
  {
    hide CarryOut, Park, Transition, GoodOwing, Wrote, Queued, HasNoAction;
    if ruling.effect == Allow {
      CarryOutWrote(env, db, id, d, e, at);
    } else if ruling.effect == AllowWithApproval {
      ParkWrote(env, db, id, d, e, VerdictIds(ruling.verdicts), at);
    } else {
      GoodLogAndCases(env, db, []);
      MoveWrote(env, db, id, Stopped, StopWith(PolicyBlocked, at), at);
    }
    assert forall bodies: seq<Body> :: [] + bodies == bodies;
  }

  /** What was told before, put in front. */
  lemma CarriedAfter(env: Env, a: DB, b: DB, c: DB, id: CaseId, e: Envelope, effect: PolicyEffect, ids: seq<nat>,
                     hedged: bool, earlier: seq<Body>, told: seq<Body>, at: Instant, r: CaseResult, record: RiskCase)
    requires Wrote(a, b, id, record, [], earlier) && Carried(env, b, c, id, e, effect, ids, hedged, told, at, r)
    requires record == a.cases[id].(state := record.state)
    ensures Carried(env, a, c, id, e, effect, ids, hedged, earlier + told, at, r)
  {
    hide Appends;
    assert a.outbox + [] == a.outbox;
    forall x: RiskCase, q: Outbox.Queue, last: seq<Body> | Wrote(b, c, id, x, q, told + last)
      ensures Wrote(a, c, id, x, q, (earlier + told) + last)
    {
      WroteTwice(a, b, c, id, record, x, [], q, earlier, told + last);
      assert earlier + (told + last) == (earlier + told) + last;
      assert [] + q == q;
    }
  }

  // ------------------------------------------------------------ the step

  /** The rules put on record by a ruling, gate by gate. */
  function RulesHeard(tr: Thresholds, w: World, e: Envelope, f: FactContext): seq<nat> {
    if e.action.ScheduleDebit? then
      [if RailRefuses(e.action, f) then 12 else 13, if e.action.amount > tr.afaRequiredAbove then 4 else 5,
       if OnHold(f) then 8 else 9, if AlreadyDone(w, e, f) then 10 else 11]
    else
      [if AskedToStop(f) || !ConsentGiven(e.action, f.consent) then 0 else 1, if InHours(w, f) then 15 else 14,
       if CapReached(tr, f) then 6 else 7, if Unclean(w, e.action) then 2 else 3,
       if OnHold(f) then 8 else 9, if AlreadyDone(w, e, f) then 10 else 11]
  }

  lemma RecordExactly(tr: Thresholds, w: World, e: Envelope, f: FactContext)
    ensures var r := Evaluate(Shipped(tr), RequestFor(e, f), FactsFor(w, e, f));
            r.Success? && VerdictIds(r.value.decision.verdicts) == RulesHeard(tr, w, e, f)
  {
    hide Evaluate, RulesOf, FactsFor, RailRefuses, OnHold, AlreadyDone, AskedToStop, ConsentGiven, InHours, CapReached, Unclean;
    if e.action.ScheduleDebit? {
      DebitRecord(tr, w, e, f);
    } else {
      MessageRecord(tr, w, e, f);
    }
  }

  lemma RuleOnWrote(env: Env, tr: Thresholds, t: Thresholds, db: DB, c: RiskCase, o: Obligation, d: D.Diagnosis,
                    e: Envelope, hedged: bool, at: Instant)
    requires Good(env, db) && RuleOn(env, Shipped(tr), t, db, c, o, d, e, hedged, at).Success?
    requires d.diagnosisId == c.caseId && e.caseId == c.caseId && c.caseId in db.cases && db.cases[c.caseId] == c
    requires c.state == Diagnosing && HasNoAction(db.outbox, c.caseId)
    ensures var (db', r) := RuleOn(env, Shipped(tr), t, db, c, o, d, e, hedged, at).value;
            var f := Reading(env.world, t, db.outbox, c, o, e, at);
            var ids := RulesHeard(tr, env.world, e, f);
            Carried(env, db, db', c.caseId, e, Ruling(tr, env.world, e, f), ids, hedged,
                    [Body(at, Some(c.caseId), Agent, PolicyEvaluated, PolicyInputs(c.caseId, KeyFor(env.world, e)), None, ids, None)],
                    at, r)
  {
    hide CarryOutRuling, Evaluate, FactsFor, Log, GoodOwing, Touches, Ruling, RulesOf, ContextFor, Reading, RulesHeard, Wrote,
         Carried, HasNoAction, CasesGood, ChainGood;
    var id, w := c.caseId, env.world;
    GoodLogAndCases(env, db, []);
    ReadingExactly(w, t, db.outbox, c, o, e, at);
    var f := ContextFor(w, t, db.outbox, c, o, e, at);
    EngineGivesTheRuling(tr, w, e, f);
    RecordExactly(tr, w, e, f);
    var decision := Evaluate(Shipped(tr), RequestFor(e, f), FactsFor(w, e, f)).value.decision;
    var body := JudgedBody(env, id, e, decision, at);
    QuietLogKeepsGood(env, db, body, id);
    var judged := Log(env, db, body).value;
    LogWrote(env, db, id, body);
    KeyIsReadFromTheOutbox(tr, w, t, db.outbox, c, o, e, at);
    CarryOutRulingWrote(env, judged, id, d, e, decision, hedged, at);
    var (db', r) := CarryOutRuling(env, judged, id, d, e, decision, hedged, at).value;
    CarriedAfter(env, db, judged, db', id, e, decision.effect, VerdictIds(decision.verdicts), hedged, [body], [], at, r, c);
    assert [body] + [] == [body];
  }

  /** What is allowed is not in the outbox yet. */
  lemma KeyIsReadFromTheOutbox(tr: Thresholds, w: World, t: Thresholds, q: Outbox.Queue, c: RiskCase, o: Obligation,
                               e: Envelope, at: Instant)
    ensures Ruling(tr, w, e, Reading(w, t, q, c, o, e, at)) == Allow ==> !Queued(q, KeyFor(w, e))
  {
    hide OnHold, RailRefuses, AskedToStop, ConsentGiven, InHours, CapReached, Unclean, Queued;
    var f := Reading(w, t, q, c, o, e, at);
    if Queued(q, KeyFor(w, e)) {
      assert KeyFor(w, e) in f.usedIdempotencyKeys;
      assert AlreadyDone(w, e, f);
    }
  }

  lemma JudgeWrote(env: Env, tr: Thresholds, t: Thresholds, db: DB, c: RiskCase, o: Obligation, d: D.Diagnosis,
                   e: Envelope, hedged: bool, at: Instant)
    requires Good(env, db) && Judge(env, Shipped(tr), t, db, c, o, d, e, hedged, at).Success?
    requires d.diagnosisId == c.caseId && e.caseId == c.caseId && c.caseId in db.cases && db.cases[c.caseId] == c
    requires c.state == Diagnosing && HasNoAction(db.outbox, c.caseId)
    requires hedged ==> e.action.SendMessage?
    ensures var (db', r) := Judge(env, Shipped(tr), t, db, c, o, d, e, hedged, at).value;
            var f := Reading(env.world, t, db.outbox, c, o, e, at);
            Carried(env, db, db', c.caseId, e, Ruling(tr, env.world, e, f), RulesHeard(tr, env.world, e, f), hedged,
                    Told(tr, env.world, c.caseId, e, f, hedged, at), at, r)
  {
    hide RuleOn, GoodOwing, Touches, Log, Ruling, RulesHeard, Reading, Wrote, Carried, CasesGood, ChainGood, HasNoAction;
    var id, w := c.caseId, env.world;
    NoteHedgeKeepsGood(env, db, id, e, hedged, at);
    var noted := NoteHedge(env, db, id, e, hedged, at).value;
    RuleOnWrote(env, tr, t, noted, c, o, d, e, hedged, at);
    if hedged {
      GoodLogAndCases(env, db, []);
      var note := Note(at, id, Agent, ContestedDiagnosisHedged, HedgeInputs(id, e.action.intent));
      LogWrote(env, db, id, note);
      var (db', r) := RuleOn(env, Shipped(tr), t, noted, c, o, d, e, hedged, at).value;
      var f := Reading(w, t, db.outbox, c, o, e, at);
      CarriedAfter(env, db, noted, db', id, e, Ruling(tr, w, e, f), RulesHeard(tr, w, e, f), hedged, [note],
                   [Judged(tr, w, id, e, f, at)], at, r, c);
    } else {
      assert [] + [Judged(tr, w, id, e, Reading(w, t, db.outbox, c, o, e, at), at)]
          == [Judged(tr, w, id, e, Reading(w, t, db.outbox, c, o, e, at), at)];
    }
  }

  function Judged(tr: Thresholds, w: World, id: CaseId, e: Envelope, f: FactContext, at: Instant): Body {
    Body(at, Some(id), Agent, PolicyEvaluated, PolicyInputs(id, KeyFor(w, e)), None, RulesHeard(tr, w, e, f), None)
  }

  /** What is on record before the ruling is carried out: a hedge, if it is one, and then
      the evaluation. */
  function Told(tr: Thresholds, w: World, id: CaseId, e: Envelope, f: FactContext, hedged: bool, at: Instant): seq<Body> {
    (if hedged && e.action.SendMessage? then [Said(at, id, ContestedDiagnosisHedged, HedgeInputs(id, e.action.intent))] else [])
    + [Judged(tr, w, id, e, f, at)]
  }

  /** Everything a step does to a diagnosed case. */
  ghost predicate ActedRight(env: Env, tr: Thresholds, t: Thresholds, db: DB, db': DB, now: RiskCase, o: Obligation,
                             d: D.Diagnosis, told: seq<Body>, at: Instant, r: CaseResult)
  {
    var id, unsure := now.caseId, d.confidence < t.confidenceFloor;
    if CallsForNothing(d, now, t.confidenceFloor) then
      && id in db.cases
      && Wrote(db, db', id, db.cases[id].(state := Escalated), [], told + [Went(at, id, Diagnosing, Escalated)])
      && r == CaseResult(id, at, if unsure then RoutedToHumanLowConfidence else RoutedToHumanNoRoute, false, None, Escalated)
    else
      exists e :: RightAction(env.world, t.confidenceFloor, now, o, d, at, e)
        && var f := Reading(env.world, t, db.outbox, now, o, e, at);
           Carried(env, db, db', id, e, Ruling(tr, env.world, e, f), RulesHeard(tr, env.world, e, f), unsure,
                   told + Told(tr, env.world, id, e, f, unsure, at), at, r)
  }

  lemma ActWrote(env: Env, tr: Thresholds, t: Thresholds, db: DB, c: RiskCase, o: Obligation, d: D.Diagnosis, at: Instant)
    requires Good(env, db) && Act(env, Shipped(tr), t, db, c, o, d, at).Success?
    requires d.diagnosisId == c.caseId && c.caseId in db.cases && db.cases[c.caseId] == c
    requires c.state == Diagnosing && HasNoAction(db.outbox, c.caseId)
    ensures var (db', r) := Act(env, Shipped(tr), t, db, c, o, d, at).value;
            ActedRight(env, tr, t, db, db', c, o, d, [], at, r)
  {
    hide Judge, Transition, Proposal, GoodOwing, Ruling, Reading, RulesHeard, Carried, RightAction, CallsForNothing, Told,
         HasNoAction, CasesGood, ChainGood;
    ProposalsNameTheirCase(env.world, t, c, o, d, at);
    assert forall bodies: seq<Body> :: [] + bodies == bodies;
    match Proposal(env.world, t, c, o, d, at)
    case Some(e) =>
      ProposalExactly(env.world, t, c, o, d, at, e);
      if d.confidence < t.confidenceFloor {
        HedgesAreMessages(env.world, t, c, o, d, at);
      }
      JudgeWrote(env, tr, t, db, c, o, d, e, d.confidence < t.confidenceFloor, at);
    case None =>
      NothingIsCalledFor(env.world, t, c, o, d, at);
      GoodLogAndCases(env, db, []);
      MoveWrote(env, db, c.caseId, Escalated, NO_UPDATES, at);
  }

  lemma NothingIsCalledFor(w: World, t: Thresholds, c: RiskCase, o: Obligation, d: D.Diagnosis, at: Instant)
    requires Proposal(w, t, c, o, d, at).None?
    ensures CallsForNothing(d, c, t.confidenceFloor)
  {
    hide Proposal, CallsForNothing, RightAction;
    ProposalExactly(w, t, c, o, d, at, RetryDebit(c, at));
  }

  lemma HedgesAreMessages(w: World, t: Thresholds, c: RiskCase, o: Obligation, d: D.Diagnosis, at: Instant)
    requires Proposal(w, t, c, o, d, at).Some? && d.confidence < t.confidenceFloor
    ensures Proposal(w, t, c, o, d, at).value.action.SendMessage?
  {
  }

  /** One completed step of a routing arm. The ledger's case was `detected`; what follows is
      told of the ledger as it stood, and of the diagnosis of the case as given. */
  ghost predicate StepTaken(env: Env, tr: Thresholds, t: Thresholds, db: DB, db': DB, c: RiskCase, r: CaseResult) {
    var id, at := c.caseId, c.detectedAt + 300;
    && id in db.cases && db.cases[id].state == Detected && c.obligationId in db.obligations
    && ActedRight(env, tr, t, db, db', db.cases[id].(state := Diagnosing), db.obligations[c.obligationId], D.Diagnose(c),
                  [Said(at, id, DiagnosisProduced, DiagnosisInputs(id, c.riskClass, c.declineClass)),
                   Went(at, id, Detected, Diagnosing)], at, r)
  }

  /** Told of the diagnosed ledger, and of the one before the diagnosis. */
  lemma ActedAfter(env: Env, tr: Thresholds, t: Thresholds, a: DB, b: DB, c: DB, now: RiskCase, o: Obligation,
                   d: D.Diagnosis, earlier: seq<Body>, at: Instant, r: CaseResult)
    requires Wrote(a, b, now.caseId, now, [], earlier) && ActedRight(env, tr, t, b, c, now, o, d, [], at, r)
    requires now == a.cases[now.caseId].(state := now.state)
    ensures ActedRight(env, tr, t, a, c, now, o, d, earlier, at, r)
  {
    hide Appends, Carried, Ruling, Reading, RulesHeard, RightAction, CallsForNothing, Told;
    var id, unsure := now.caseId, d.confidence < t.confidenceFloor;
    assert a.outbox + [] == a.outbox;
    assert forall bodies: seq<Body> :: [] + bodies == bodies;
    if CallsForNothing(d, now, t.confidenceFloor) {
      WroteTwice(a, b, c, id, now, b.cases[id].(state := Escalated), [], [], earlier, [Went(at, id, Diagnosing, Escalated)]);
    } else {
      var e :| RightAction(env.world, t.confidenceFloor, now, o, d, at, e)
        && var f := Reading(env.world, t, b.outbox, now, o, e, at);
           Carried(env, b, c, id, e, Ruling(tr, env.world, e, f), RulesHeard(tr, env.world, e, f), unsure,
                   [] + Told(tr, env.world, id, e, f, unsure, at), at, r);
      var f := Reading(env.world, t, b.outbox, now, o, e, at);
      CarriedAfter(env, a, b, c, id, e, Ruling(tr, env.world, e, f), RulesHeard(tr, env.world, e, f), unsure, earlier,
                   Told(tr, env.world, id, e, f, unsure, at), at, r, now);
    }
  }

  lemma BeginWrote(env: Env, db: DB, c: RiskCase, at: Instant)
    requires Good(env, db) && Begin(env, db, c, at).Success?
    ensures c.caseId in db.cases && db.cases[c.caseId].state == Detected
    ensures Wrote(db, Begin(env, db, c, at).value, c.caseId, db.cases[c.caseId].(state := Diagnosing), [],
                  [Said(at, c.caseId, DiagnosisProduced, DiagnosisInputs(c.caseId, c.riskClass, c.declineClass)),
                   Went(at, c.caseId, Detected, Diagnosing)])
  {
    hide Log, Transition, GoodOwing, Touches, CasesGood, ChainGood, Appends;
    BeginKeepsGood(env, db, c, at);
    var id, body := c.caseId, Note(at, c.caseId, Agent, DiagnosisProduced, DiagnosisInputs(c.caseId, c.riskClass, c.declineClass));
    QuietLogKeepsGood(env, db, body, id);
    var diagnosed := Log(env, db, body).value;
    GoodLogAndCases(env, db, []);
    GoodLogAndCases(env, diagnosed, []);
    LogWrote(env, db, id, body);
    MoveWrote(env, diagnosed, id, Diagnosing, NO_UPDATES, at);
    WroteTwice(db, diagnosed, Begin(env, db, c, at).value, id, db.cases[id], db.cases[id].(state := Diagnosing), [], [],
               [body], [Went(at, id, Detected, Diagnosing)]);
    assert [body] + [Went(at, id, Detected, Diagnosing)] == [body, Went(at, id, Detected, Diagnosing)];
  }

  /** A completed step of a routing arm does exactly this, and nothing else. */
  lemma RoutedExactly(env: Env, tr: Thresholds, t: Thresholds, db: DB, c: RiskCase)
    requires Good(env, db) && (c.arm == A3 || c.arm == A4) && ProcessCase(env, Shipped(tr), t, db, c).Success?
    ensures var (db', r) := ProcessCase(env, Shipped(tr), t, db, c).value; StepTaken(env, tr, t, db, db', c, r)
  {
    hide Begin, Act, GoodOwing, Touches, D.Diagnose, ActedRight, Wrote, HasNoAction;
    var id, at := c.caseId, c.detectedAt + 300;
    BeginKeepsGood(env, db, c, at);
    BeginWrote(env, db, c, at);
    GoodHasOneActionPerCase(env, db);
    UndiagnosedHasNoAction(db, id);
    CaseKnowsItsId(env, db, id);
    D.DiagnosisByClass(c);
    var started := Begin(env, db, c, at).value;
    var o, d, now := db.obligations[c.obligationId], D.Diagnose(c), started.cases[id];
    ActWrote(env, tr, t, started, now, o, d, at);
    var (db', r) := Act(env, Shipped(tr), t, started, now, o, d, at).value;
    ActedAfter(env, tr, t, db, started, db', now, o, d,
               [Said(at, id, DiagnosisProduced, DiagnosisInputs(id, c.riskClass, c.declineClass)), Went(at, id, Detected, Diagnosing)],
               at, r);
  }

  /** The other arms are left alone: one row says which, and nothing moves. */
  lemma LeftAloneExactly(env: Env, tr: Thresholds, t: Thresholds, db: DB, c: RiskCase)
    requires Good(env, db) && c.arm != A3 && c.arm != A4 && ProcessCase(env, Shipped(tr), t, db, c).Success?
    ensures var (db', r) := ProcessCase(env, Shipped(tr), t, db, c).value;
            var at := c.detectedAt + 300;
            && db'.cases == db.cases && db'.obligations == db.obligations && db'.outbox == db.outbox
            && Appends(db.audit, db'.audit,
                 [Body(at, Some(c.caseId), System, if c.arm == A0 then ControlArmNoAction else ArmNotRouted,
                       ArmInputs(c.caseId, c.arm), None, [], None)])
            && r == CaseResult(c.caseId, at,
                 if c.arm == A0 then ControlArmLeftAlone
                 else if c.arm == A5 then SimulationOnlyArmSkipped else BaselineLadderNotImplemented, false, None, c.state)
  {
    hide Log, GoodOwing, CasesGood, ChainGood, Appends;
    var at := c.detectedAt + 300;
    var body := Note(at, c.caseId, System, if c.arm == A0 then ControlArmNoAction else ArmNotRouted, ArmInputs(c.caseId, c.arm));
    GoodLogAndCases(env, db, []);
    OneRowAppended(env, db, body);
  }

  lemma OneRowAppended(env: Env, db: DB, body: Body)
    requires ChainGood(env, db) && Log(env, db, body).Success?
    ensures var db' := Log(env, db, body).value;
            && db'.cases == db.cases && db'.obligations == db.obligations && db'.outbox == db.outbox
            && Appends(db.audit, db'.audit, [body])
  {
    hide ValidChain, RowValid, BodyValid;
    LogAppends(env, db, body);
  }
}
