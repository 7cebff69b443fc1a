/**
 Why every action in the outbox is there: for each row of any reached ledger, the agent
 step that enqueued it and what was true when it did.
 */
module Justification {
  import opened Wrappers
  import opened Vocabulary
  import opened Actions
  import opened Cases
  import opened Parties
  import opened PolicyFormat
  import opened PolicyRules
  import opened ShippedPolicy
  import opened Spine
  import opened Flow
  import opened FlowSafety
  import opened AgentStep
  import opened Outcomes
  import opened Runs
  import D = Diagnosis
  import Outbox

  /** The step proposed this action on this ledger, and the policy ruled ALLOW on it. */
  predicate Allows(env: Env, tr: Thresholds, t: Thresholds, db: DB, c: RiskCase, e: Envelope) {
    var at := c.detectedAt + PLANNING_LATENCY;
    && IsRoutingArm(c.arm)
    && c.caseId in db.cases && db.cases[c.caseId].caseId == c.caseId && c.obligationId in db.obligations
    && var current, o := db.cases[c.caseId].(state := Diagnosing), db.obligations[c.obligationId];
       && Proposal(env.world, t, current, o, D.Diagnose(c), at) == Some(e)
       && Ruling(tr, env.world, e, ContextFor(env.world, t, db.outbox, current, o, e, at)) == Allow
  }

  /** Nobody told us to stop and nothing of ours is broken, as the step reads it: no open
      hold, no record on any channel ungranted or withdrawn, no cohort and no incident. */
  predicate Undisturbed(w: World, c: RiskCase, at: Instant) {
    && (forall h :: h in w.holdsOf(c) ==> h.releasedAt.Some? || h.openedAt > at)
    && (w.consentOf(c.payerId).Some? ==>
          forall r :: r in w.consentOf(c.payerId).value.records ==> r.granted && r.withdrawnAt.None?)
    && c.cohortId.None? && c.incidentId.None?
  }

  predicate StillOwed(o: Obligation) {
    o.status == ObligationStatus.Open || o.status == PartiallyPaid
  }

  /** What stands behind a queued debit: the step was given the row's own case, diagnosed
      liquidity, and re-presents that case's own amount a day after it ran. */
  predicate DebitJustified(env: Env, tr: Thresholds, t: Thresholds, db: DB, c: RiskCase, e: Envelope) {
    && e.action.ScheduleDebit? && e.caseId == c.caseId && c.caseId in db.cases && c.obligationId in db.obligations
    && var at, d, stored := c.detectedAt + 300, D.Diagnose(c), db.cases[c.caseId];
       && (c.arm == A3 || c.arm == A4)
       && d.rootCause == H1TimingLiquidity && d.confidence >= t.confidenceFloor && d.alternatives == []
       && e == Envelope(2 * c.caseId + 1, c.caseId,
                        ScheduleDebit(stored.obligationId, CardOneTime, stored.amountAtRisk, at + 86_400, 2))
       && stored.amountAtRisk <= tr.afaRequiredAbove
       && stored.declineClass in {None, Some(InsufficientFunds), Some(IssuerTransientDecline)}
       && StillOwed(db.obligations[c.obligationId])
       && Undisturbed(env.world, stored.(state := Diagnosing), at)
       && |DebitsOn(db.outbox, stored.obligationId)| < 3
       && !Queued(db.outbox, KeyFor(env.world, e))
       && (SameCase(c, stored) ==>
             stored.declineClass == Some(InsufficientFunds) || stored.declineClass == Some(IssuerTransientDecline))
  }

  /** What stands behind a queued message: the intent, channel, template and slots the
      diagnosis calls for, and the consent, holds, hours and counts of the row's own case. */
  predicate MessageJustified(env: Env, tr: Thresholds, t: Thresholds, db: DB, c: RiskCase, e: Envelope) {
    && e.action.SendMessage? && e.caseId == c.caseId && c.caseId in db.cases && c.obligationId in db.obligations
    && var at, stored, o := c.detectedAt + 300, db.cases[c.caseId], db.obligations[c.obligationId];
       var now, consent := stored.(state := Diagnosing), env.world.consentOf(stored.payerId);
       && (c.arm == A3 || c.arm == A4)
       && !CallsForNothing(D.Diagnose(c), now, t.confidenceFloor)
       && RightAction(env.world, t.confidenceFloor, now, o, D.Diagnose(c), at, e)
       && consent.Some? && !consent.value.onDncList && consent.value.language == EnIn
       && RecordCovers(consent.value, e.action.channel, e.action.intent)
       && OpenHours(env.world, at,
                    if consent.value.quietHours.Some? then consent.value.quietHours.value
                    else QuietHours(t.quietStartHour, t.quietEndHour, FALLBACK_ZONE), {})
       && (forall s :: s in e.action.slots ==> !s.freeText && !env.world.isBanned(s.value))
       && !e.action.templateId.TplUnregistered?
       && |MessagesOf(db.outbox, stored.caseId)| < tr.maxContactsPerChannelPer7d
       && |MessagesOf(db.outbox, stored.caseId)| < tr.maxContactsTotalPerCase
       && StillOwed(o)
       && Undisturbed(env.world, now, at)
       && !Queued(db.outbox, KeyFor(env.world, e))
  }

  /** Some cause still on the table forbids asking for money. */
  predicate NudgeForbidden(d: D.Diagnosis) {
    d.rootCause.ForbidsPaymentNudge() || exists cause :: cause in d.alternatives && cause.ForbidsPaymentNudge()
  }

  predicate AsksForMoney(a: Action) {
    a.ScheduleDebit? || (a.SendMessage? && a.intent == PaymentReminder)
  }

  /** The router against the diagnosis. Nothing is proposed for an unknown or nudge-forbidding
      cause. Below the floor only a contested diagnosis yields anything, and then only a
      contact: the plain failure notice when a debit failed, and a reminder only if no cause
      on the table forbids one. Every message uses the template registered for its intent. */
  lemma ProposalsRespectTheDiagnosis(w: World, t: Thresholds, c: RiskCase, o: Obligation, d: D.Diagnosis, at: Instant)
    requires Proposal(w, t, c, o, d, at).Some?
    ensures var a := Proposal(w, t, c, o, d, at).value.action;
            && d.rootCause != UnknownCause
            && (d.confidence >= t.confidenceFloor ==> !d.rootCause.ForbidsPaymentNudge())
            && (d.confidence < t.confidenceFloor ==>
                  && a.SendMessage? && d.alternatives != []
                  && (c.declineClass.Some? ==> a.intent == PaymentFailedInform && !AsksForMoney(a))
                  && (c.declineClass.None? ==> a.intent == PaymentReminder && !NudgeForbidden(d)))
            && (a.SendMessage? ==> IntentOfTemplate(a.templateId) == Some(a.intent) && a.language == EnIn)
  {
    if d.confidence < t.confidenceFloor && c.declineClass.None? {
      assert HedgedRoute(w, c, o, d).Some?;
      forall cause | cause in d.alternatives ensures !cause.ForbidsPaymentNudge() {
        assert cause in [d.rootCause] + d.alternatives;
      }
      assert d.rootCause in [d.rootCause] + d.alternatives;
    }
  }

  lemma AllowedDebitIsJustified(env: Env, tr: Thresholds, t: Thresholds, db: DB, c: RiskCase, e: Envelope)
    requires Good(env, db) && Allows(env, tr, t, db, c, e) && e.action.ScheduleDebit?
    ensures DebitJustified(env, tr, t, db, c, e)
  {
    hide Proposal, GoodOwing, Reading, CallsForNothing;
    var at := c.detectedAt + PLANNING_LATENCY;
    var current, o := db.cases[c.caseId].(state := Diagnosing), db.obligations[c.obligationId];
    ProposalExactly(env.world, t, current, o, D.Diagnose(c), at, e);
    AskedAs(env, t, db, current, o, e, at);
    D.LiquidityDiagnosis(c);
    ClearedDebit(tr, env.world, t, db.outbox, current, o, e, at);
  }

  /** The bundle the step built is the reading of the ledger. */
  lemma AskedAs(env: Env, t: Thresholds, db: DB, current: RiskCase, o: Obligation, e: Envelope, at: Instant)
    requires Good(env, db)
    ensures ContextFor(env.world, t, db.outbox, current, o, e, at) == Reading(env.world, t, db.outbox, current, o, e, at)
  {
    hide CasesGood, ChainGood, Reading, ContextFor, Outbox.AllShadow;
    GoodLogAndCases(env, db, []);
    ReadingExactly(env.world, t, db.outbox, current, o, e, at);
  }

  lemma Cleared(w: World, t: Thresholds, q: Outbox.Queue, current: RiskCase, o: Obligation, e: Envelope, at: Instant)
    requires var f := Reading(w, t, q, current, o, e, at); !OnHold(f) && !AlreadyDone(w, e, f)
    ensures Undisturbed(w, current, at) && StillOwed(o) && !Queued(q, KeyFor(w, e))
  {
    hide DebitsOn, MessagesOf, Queued;
  }

  lemma ClearedDebit(tr: Thresholds, w: World, t: Thresholds, q: Outbox.Queue, current: RiskCase, o: Obligation,
                     e: Envelope, at: Instant)
    requires e.action.ScheduleDebit? && Ruling(tr, w, e, Reading(w, t, q, current, o, e, at)) == Allow
    ensures Undisturbed(w, current, at) && StillOwed(o) && !Queued(q, KeyFor(w, e))
    ensures e.action.amount <= tr.afaRequiredAbove && |DebitsOn(q, current.obligationId)| < 3
    ensures current.declineClass in {None, Some(InsufficientFunds), Some(IssuerTransientDecline)}
  {
    hide OnHold, AlreadyDone, DebitsOn, MessagesOf, Queued, Undisturbed;
    Cleared(w, t, q, current, o, e, at);
  }

  lemma AllowedMessageIsJustified(env: Env, tr: Thresholds, t: Thresholds, db: DB, c: RiskCase, e: Envelope)
    requires Good(env, db) && Allows(env, tr, t, db, c, e) && e.action.SendMessage?
    ensures MessageJustified(env, tr, t, db, c, e)
  {
    hide Proposal, GoodOwing, Reading, CallsForNothing, D.Diagnose, Ruling, OpenHours, RecordCovers, DebitsOn, MessagesOf, Queued,
         Undisturbed, SlotsFit, TemplateFits, ChannelFits, IntentFits;
    var at := c.detectedAt + PLANNING_LATENCY;
    var current, o := db.cases[c.caseId].(state := Diagnosing), db.obligations[c.obligationId];
    ProposalExactly(env.world, t, current, o, D.Diagnose(c), at, e);
    AskedAs(env, t, db, current, o, e, at);
    ClearedMessage(tr, env.world, t, db.outbox, current, o, e, at);
  }

  lemma ClearedMessage(tr: Thresholds, w: World, t: Thresholds, q: Outbox.Queue, current: RiskCase, o: Obligation,
                       e: Envelope, at: Instant)
    requires e.action.SendMessage? && Ruling(tr, w, e, Reading(w, t, q, current, o, e, at)) == Allow
    ensures Undisturbed(w, current, at) && StillOwed(o) && !Queued(q, KeyFor(w, e))
    ensures var consent := w.consentOf(current.payerId);
            && consent.Some? && !consent.value.onDncList && consent.value.language == e.action.language
            && RecordCovers(consent.value, e.action.channel, e.action.intent)
            && OpenHours(w, at,
                         if consent.value.quietHours.Some? then consent.value.quietHours.value
                         else QuietHours(t.quietStartHour, t.quietEndHour, FALLBACK_ZONE), {})
    ensures forall s :: s in e.action.slots ==> !s.freeText && !w.isBanned(s.value)
    ensures !e.action.templateId.TplUnregistered?
    ensures |MessagesOf(q, current.caseId)| < tr.maxContactsPerChannelPer7d
    ensures |MessagesOf(q, current.caseId)| < tr.maxContactsTotalPerCase
  {
    hide OnHold, AlreadyDone, AskedToStop, DebitsOn, MessagesOf, Queued, Undisturbed, RecordCovers, OpenHours;
    Cleared(w, t, q, current, o, e, at);
  }

  predicate Justified(env: Env, tr: Thresholds, t: Thresholds, db: DB, c: RiskCase, e: Envelope) {
    if e.action.ScheduleDebit? then DebitJustified(env, tr, t, db, c, e) else MessageJustified(env, tr, t, db, c, e)
  }

  // ------------------------------------------------------------ who writes the outbox

  /** The step took this case from `detected` to `scheduled`. */
  predicate Schedules(a: DB, b: DB, id: CaseId) {
    id in a.cases && a.cases[id].state == Detected && id in b.cases && b.cases[id].state == Scheduled
  }

  /** The operation is an agent step for which the action was justified. */
  predicate JustifiedBy(env: Env, db: DB, op: Op, e: Envelope) {
    op.Process? && e.caseId == op.given.caseId && Justified(env, op.ruleThresholds, op.thresholds, db, op.given, e)
  }

  predicate AddsThis(env: Env, db: DB, db': DB, op: Op, e: Envelope) {
    && db'.outbox == db.outbox + [Outbox.FreshRow(env.world.digest, FreshId(db.outbox), e)]
    && Schedules(db, db', e.caseId) && JustifiedBy(env, db, op, e)
  }

  ghost predicate AddsJustified(env: Env, db: DB, db': DB, op: Op) {
    exists e :: AddsThis(env, db, db', op, e)
  }

  lemma FreshIsNew(digest: Outbox.ScopeDigest, q: Outbox.Queue, e: Envelope)
    ensures Outbox.FreshRow(digest, FreshId(q), e) == Outbox.NewRow(digest, q, e)
  {
  }

  /** A step adds at most one row, and then a justified one. */
  lemma RoutedAddsJustified(env: Env, tr: Thresholds, t: Thresholds, db: DB, c: RiskCase)
    requires Good(env, db) && IsRoutingArm(c.arm)
    requires Routed(env, Shipped(tr), t, db, c, c.detectedAt + PLANNING_LATENCY).Success?
    ensures var db' := Routed(env, Shipped(tr), t, db, c, c.detectedAt + PLANNING_LATENCY).value.0;
            db'.outbox == db.outbox || AddsJustified(env, db, db', Process(tr, t, c))
  {
    hide Routed, GoodOwing, Justified, ContextFor, Ruling, D.Diagnose, Proposal, Touches;
    var at := c.detectedAt + PLANNING_LATENCY;
    RoutedKeepsGood(env, tr, t, db, c, at);
    var (db', r) := Routed(env, Shipped(tr), t, db, c, at).value;
    var current, o := db.cases[c.caseId].(state := Diagnosing), db.obligations[c.obligationId];
    CaseKnowsItsId(env, db, c.caseId);
    var p := Proposal(env.world, t, current, o, D.Diagnose(c), at);
    if p.Some? {
      var e := p.value;
      ProposalsNameTheirCase(env.world, t, current, o, D.Diagnose(c), at);
      var context := ContextFor(env.world, t, db.outbox, current, o, e, at);
      if Ruling(tr, env.world, e, context) == Allow {
        assert Allows(env, tr, t, db, c, e);
        AllowedIsJustified(env, tr, t, db, c, e);
        FreshIsNew(env.world.digest, db.outbox, e);
        assert AddsThis(env, db, db', Process(tr, t, c), e);
      }
    }
  }

  lemma AllowedIsJustified(env: Env, tr: Thresholds, t: Thresholds, db: DB, c: RiskCase, e: Envelope)
    requires Good(env, db) && Allows(env, tr, t, db, c, e)
    ensures Justified(env, tr, t, db, c, e)
  {
    hide GoodOwing, Allows, DebitJustified, MessageJustified;
    if e.action.ScheduleDebit? {
      AllowedDebitIsJustified(env, tr, t, db, c, e);
    } else {
      AllowedMessageIsJustified(env, tr, t, db, c, e);
    }
  }

  lemma ProcessAddsJustified(env: Env, tr: Thresholds, t: Thresholds, db: DB, c: RiskCase)
    requires Good(env, db) && ProcessCase(env, Shipped(tr), t, db, c).Success?
    ensures var db' := ProcessCase(env, Shipped(tr), t, db, c).value.0;
            db'.outbox == db.outbox || AddsJustified(env, db, db', Process(tr, t, c))
  {
    hide Routed, LeaveAlone, GoodOwing, AddsJustified;
    if IsRoutingArm(c.arm) {
      RoutedAddsJustified(env, tr, t, db, c);
    } else {
      LeaveAloneKeepsGood(env, db, c, c.detectedAt + PLANNING_LATENCY);
    }
  }

  lemma SameQueue(q: Outbox.Queue)
    ensures Outbox.SameProposals(q, q)
  {
  }

  /** Only the agent step proposes, one justified action for the case it schedules; every
      other operation leaves the proposals as they are. */
  lemma OnlyTheAgentProposes(env: Env, db: DB, op: Op)
    requires Good(env, db)
    ensures var db' := Commit(env, db, op);
            Outbox.SameProposals(db.outbox, db'.outbox) || AddsJustified(env, db, db', op)
  {
    hide ProcessCase, ResolveCase, Transition, OpenCase, GoodOwing, AddsJustified;
    SameQueue(db.outbox);
    if Attempt(env, db, op).Success? {
      match op
      case Upsert(o) =>
      case Open(c, actor, at) => OpenKeepsGood(env, db, c, actor, at);
      case Move(id, to, u, actor, event, at) => MoveKeepsGood(env, db, id, to, u, actor, event, at, []);
      case Process(tr, t, c) => ProcessAddsJustified(env, tr, t, db, c);
      case Resolve(id, money) =>
        ResolvingKnownCase(env, db, id, money);
        ResolveIsNeverIllegal(env, db, id, money);
      case ClaimNext(worker) => Outbox.ClaimKeepsProposals(db.outbox, worker);
      case Mark(id, report) => Outbox.FinishKeepsProposals(db.outbox, id, report);
    }
  }

  /** Row `k` of the outbox this run leaves was put there by step `n`: the outbox had `k`
      rows before it and this one more after it, the step routed the row's own case from
      `detected` to `scheduled`, and the action was justified on the ledger it ran on. */
  ghost predicate QueuedBy(env: Env, ops: seq<Op>, k: nat, n: nat)
    requires k < |After(env, ops).outbox| && n < |ops|
  {
    var e := After(env, ops).outbox[k].envelope;
    var before, after := After(env, ops[..n]), After(env, ops[..n + 1]);
    && |before.outbox| == k
    && after.outbox == before.outbox + [Outbox.FreshRow(env.world.digest, FreshId(before.outbox), e)]
    && Schedules(before, after, e.caseId)
    && JustifiedBy(env, before, ops[n], e)
  }

  ghost predicate WasQueued(env: Env, ops: seq<Op>, k: nat)
    requires k < |After(env, ops).outbox|
  {
    exists n :: 0 <= n < |ops| && QueuedBy(env, ops, k, n)
  }

  lemma QueuedByLasts(env: Env, before: seq<Op>, op: Op, k: nat, n: nat)
    requires k < |After(env, before).outbox| && n < |before| && QueuedBy(env, before, k, n)
    requires k < |After(env, before + [op]).outbox|
    requires After(env, before + [op]).outbox[k].envelope == After(env, before).outbox[k].envelope
    ensures QueuedBy(env, before + [op], k, n)
  {
    hide After, JustifiedBy, Schedules;
    var ops := before + [op];
    assert ops[..n] == before[..n] && ops[..n + 1] == before[..n + 1] && ops[n] == before[n];
  }

  lemma QueuedNow(env: Env, before: seq<Op>, op: Op, e: Envelope)
    requires AddsThis(env, After(env, before), After(env, before + [op]), op, e)
    ensures var k := |After(env, before).outbox|;
            k < |After(env, before + [op]).outbox| && QueuedBy(env, before + [op], k, |before|)
  {
    hide After, JustifiedBy, Schedules;
    var ops := before + [op];
    assert ops[..|before|] == before && ops[..|before| + 1] == ops && ops[|before|] == op;
  }

  /** Nothing is in the outbox of any reached ledger without a reason: each row was put
      there by one step of the run, an agent step on that very case, for which the action
      was justified on the ledger as it stood. */
  lemma {:induction false} EveryQueuedActionWasJustified(env: Env, ops: seq<Op>)
    ensures forall k :: 0 <= k < |After(env, ops).outbox| ==> WasQueued(env, ops, k)
  {
    hide Commit, QueuedBy, JustifiedBy, GoodOwing, Schedules;
    if ops != [] {
      var before, op := ops[..|ops| - 1], ops[|ops| - 1];
      assert ops == before + [op];
      EveryQueuedActionWasJustified(env, before);
      EveryReachedLedgerIsGood(env, before);
      OnlyTheAgentProposes(env, After(env, before), op);
      var earlier, now := After(env, before).outbox, After(env, ops).outbox;
      forall k | 0 <= k < |now| ensures WasQueued(env, ops, k) {
        if k < |earlier| {
          assert now[k].envelope == earlier[k].envelope by {
            if Outbox.SameProposals(earlier, now) {
              assert Outbox.SameProposal(earlier[k], now[k]);
            }
          }
          assert WasQueued(env, before, k);
          var n :| 0 <= n < |before| && QueuedBy(env, before, k, n);
          QueuedByLasts(env, before, op, k, n);
        } else {
          var e :| AddsThis(env, After(env, before), After(env, ops), op, e);
          QueuedNow(env, before, op, e);
        }
      }
    }
  }

  /** And by one step only: no other step of the run found the outbox with `k` rows and
      left it with more. */
  lemma QueuedOnce(env: Env, ops: seq<Op>, k: nat, n: nat, m: nat)
    requires k < |After(env, ops).outbox| && n < |ops| && m < |ops|
    requires QueuedBy(env, ops, k, n) && QueuedBy(env, ops, k, m)
    ensures n == m
  {
    hide After, JustifiedBy, Schedules, Grew;
    var first, last := if n < m then n else m, if n < m then m else n;
    if first < last {
      var until := ops[..last];
      assert until[..first + 1] == ops[..first + 1];
      EarlierLedgersAreKept(env, until, first + 1);
      NeverFewerRows(After(env, ops[..first + 1]), After(env, until));
    }
  }

  lemma NeverFewerRows(a: DB, b: DB)
    requires Grew(a, b)
    ensures |a.outbox| <= |b.outbox|
  {
  }
}
