/**
 What the shipped rule set means on the facts the builder supplies: the engine's
 answer, stated without rules, predicates or facts.
 */
module ShippedPolicy {
  import opened Wrappers
  import opened Vocabulary
  import opened Actions
  import opened Parties
  import opened PolicyFormat
  import opened PolicyEngine
  import opened PolicyRules
  import opened PolicyFacts

  predicate HoldsBlock(c: FactContext) {
    OptedOut(c) || HasOpenHold(c) || c.riskCase.cohortId.Some? || c.riskCase.incidentId.Some?
  }

  predicate IntegrityBlocks(w: World, e: Envelope, c: FactContext) {
    KeyOf(w.digest, e) in c.usedIdempotencyKeys || !Outstanding(c.obligation)
  }

  predicate RailBlocks(a: Action, c: FactContext)
    requires a.ScheduleDebit?
  {
    || !MandateAllows(a.rail, a.amount, c.mandate)
    || LastDeclineHard(c.riskCase)
    || c.debitAttemptsThisWindow >= MAX_DEBIT_ATTEMPTS_PER_RECOVERY_WINDOW
  }

  /** Some effective record on this channel covers the purpose of the message. */
  predicate ConsentCovers(a: Action, consent: Option<ConsentProfile>)
    requires a.SendMessage?
  {
    && HasConsent(consent, a.channel)
    && RecordFor(consent.value.records, a.channel).value.dpdpPurpose == PurposeOf(a.intent)
    && consent.value.language == a.language
  }

  predicate TimingBlocks(w: World, c: FactContext) {
    var window := GoverningWindow(c.consent, c.thresholds);
    !WithinWindow(w, c.now, window) || w.localDate(c.now, window.zone) in c.declaredHolidays
  }

  predicate FrequencyBlocks(t: Thresholds, c: FactContext) {
    || c.contactsOnChannelLast7d >= t.maxContactsPerChannelPer7d
    || c.contactsTotalThisCase >= t.maxContactsTotalPerCase
  }

  predicate ContentBlocks(w: World, a: Action)
    requires a.SendMessage?
  {
    || !IsDltRegistered(a.templateId)
    || exists s :: s in a.slots && (s.freeText || w.isBanned(s.value))
  }

  function RequestFor(e: Envelope, c: FactContext): Request {
    Request(e.action.Type(), c.riskCase.segment, e.action.ChannelOf())
  }

  // ------------------------------------------------------------ the same, field by field

  /** An open opt-out hold, or a record on any channel never granted or withdrawn. */
  predicate AskedToStop(c: FactContext) {
    || (exists h :: h in c.holds && h.kind == HardStopOptOut && h.releasedAt.None? && h.openedAt <= c.now)
    || (c.consent.Some? && exists r :: r in c.consent.value.records && (!r.granted || r.withdrawnAt.Some?))
  }

  /** Nobody is to act: an open hold, a payer who asked to stop, our own cohort or incident. */
  predicate OnHold(c: FactContext) {
    || AskedToStop(c) || (exists h :: h in c.holds && h.releasedAt.None? && h.openedAt <= c.now)
    || c.riskCase.cohortId.Some? || c.riskCase.incidentId.Some?
  }

  /** Nothing is left to do: the key is known, or the debt is no longer outstanding. */
  predicate AlreadyDone(w: World, e: Envelope, c: FactContext) {
    || IdempotencyKey(if e.action.ScheduleDebit? then ScheduleDebitType else SendMessageType,
                      w.digest(e.caseId, e.action)) in c.usedIdempotencyKeys
    || (c.obligation.status != ObligationStatus.Open && c.obligation.status != PartiallyPaid)
  }

  predicate NeedsMandate(rail: Rail) {
    rail != CardOneTime && rail != UpiCollect && rail != BankTransfer
  }

  /** A live mandate for at least the amount. */
  predicate MandateCovers(mandate: Option<Mandate>, amount: Paise) {
    && mandate.Some? && mandate.value.status == MandateActive && mandate.value.revokedAt.None?
    && amount <= mandate.value.cap
  }

  /** A mandate is needed and missing, the last decline was hard, or three are queued. */
  predicate RailRefuses(a: Action, c: FactContext)
    requires a.ScheduleDebit?
  {
    || (NeedsMandate(a.rail) && !MandateCovers(c.mandate, a.amount))
    || (c.riskCase.declineClass.Some? && c.riskCase.declineClass != Some(InsufficientFunds)
        && c.riskCase.declineClass != Some(IssuerTransientDecline))
    || c.debitAttemptsThisWindow >= 3
  }

  predicate DebitRefused(w: World, e: Envelope, c: FactContext)
    requires e.action.ScheduleDebit?
  {
    RailRefuses(e.action, c) || OnHold(c) || AlreadyDone(w, e, c)
  }

  predicate PurposeFits(purpose: Purpose, intent: MessageIntent) {
    && (purpose == Retention <==> intent == RetentionOutreach)
    && (purpose == AccountServicing <==> intent == InvoiceCorrection || intent == ServiceApology)
    && !purpose.OtherPurpose?
  }

  /** The first record on the channel is the one that counts. */
  predicate RecordCovers(p: ConsentProfile, channel: Channel, intent: MessageIntent) {
    exists k :: 0 <= k < |p.records| && p.records[k].channel == channel
      && (forall j :: 0 <= j < k ==> p.records[j].channel != channel)
      && p.records[k].granted && p.records[k].withdrawnAt.None? && PurposeFits(p.records[k].dpdpPurpose, intent)
  }

  /** Local time is in `[start, end)` on a working day. */
  predicate OpenHours(w: World, now: Instant, hours: QuietHours, holidays: set<int>) {
    && hours.startHour <= w.localHour(now, hours.zone) && w.localHour(now, hours.zone) < hours.endHour
    && w.localDate(now, hours.zone) !in holidays
  }

  predicate ConsentGiven(a: Action, consent: Option<ConsentProfile>)
    requires a.SendMessage?
  {
    && consent.Some? && !consent.value.onDncList && consent.value.language == a.language
    && RecordCovers(consent.value, a.channel, a.intent)
  }

  /** The hours the payer stated, and the configured ones in the fallback zone otherwise. */
  predicate InHours(w: World, c: FactContext) {
    if c.consent.Some? && c.consent.value.quietHours.Some?
    then OpenHours(w, c.now, c.consent.value.quietHours.value, c.declaredHolidays)
    else OpenHours(w, c.now, QuietHours(c.thresholds.quietStartHour, c.thresholds.quietEndHour, FALLBACK_ZONE), c.declaredHolidays)
  }

  predicate CapReached(t: Thresholds, c: FactContext) {
    || c.contactsOnChannelLast7d >= t.maxContactsPerChannelPer7d
    || c.contactsTotalThisCase >= t.maxContactsTotalPerCase
  }

  predicate Unclean(w: World, a: Action)
    requires a.SendMessage?
  {
    a.templateId.TplUnregistered? || exists s :: s in a.slots && (s.freeText || w.isBanned(s.value))
  }

  predicate MessageRefused(t: Thresholds, w: World, e: Envelope, c: FactContext)
    requires e.action.SendMessage?
  {
    || AskedToStop(c) || !ConsentGiven(e.action, c.consent)
    || !InHours(w, c) || CapReached(t, c) || Unclean(w, e.action)
    || OnHold(c) || AlreadyDone(w, e, c)
  }

  // ------------------------------------------------------------ gate by gate

  /** Which block of the bundle a fact belongs to. */
  datatype Block = SharedBlock | DebitBlock | ConsentBlock | TimingBlock | MessageBlock | NoBlock

  function BlockOf(k: FactKey): Block {
    match k
    case IsOptedOut => SharedBlock
    case HasActiveHold => SharedBlock
    case HasOpenDispute => SharedBlock
    case HasHardshipFlag => SharedBlock
    case HasLegalHold => SharedBlock
    case HasOpenChargeback => SharedBlock
    case InSuppressedCohort => SharedBlock
    case HasOpenIncidentAttributableToUs => SharedBlock
    case IdempotencyKeyAlreadyUsed => SharedBlock
    case ObligationAlreadySettled => SharedBlock
    case SegmentFact => SharedBlock
    case DebitAmount => DebitBlock
    case RailFact => DebitBlock
    case MandateIsDebitable => DebitBlock
    case LastDeclineWasHard => DebitBlock
    case NetworkRetryCountThisWindow => DebitBlock
    case IsOnDncList => ConsentBlock
    case ConsentRecordExists => ConsentBlock
    case HasChannelConsent => ConsentBlock
    case ConsentLanguageMatches => ConsentBlock
    case DpdpPurposeCoversAction => ConsentBlock
    case IsWithinQuietHours => TimingBlock
    case QuietHoursEndAt => TimingBlock
    case IsDeclaredHoliday => TimingBlock
    case ContactsOnChannelLast7d => TimingBlock
    case ContactsTotalThisCase => TimingBlock
    case TemplateIsDltRegistered => MessageBlock
    case TemplateLanguage => MessageBlock
    case HasFreeTextSlot => MessageBlock
    case ContainsBannedPhrase => MessageBlock
    case _ => NoBlock
  }

  predicate InBlock(f: Facts, b: Block) {
    forall k :: k in f ==> BlockOf(k) == b
  }

  predicate Extends(f: Facts, g: Facts) {
    forall k :: k in g ==> k in f && f[k] == g[k]
  }

  lemma SharedFactsInBlock(w: World, e: Envelope, c: FactContext)
    ensures InBlock(SharedFacts(w, e, c), SharedBlock)
  {
    hide HoldFacts, IntegrityFacts, OptedOut;
    HoldFactsInBlock(c);
    IntegrityFactsInBlock(w, e, c);
  }

  lemma IntegrityFactsInBlock(w: World, e: Envelope, c: FactContext)
    ensures InBlock(IntegrityFacts(w, e, c), SharedBlock)
  {
  }

  lemma HoldFactsInBlock(c: FactContext)
    ensures InBlock(HoldFacts(c), SharedBlock)
  {
    KindFactsInBlock(c);
  }

  lemma KindFactsInBlock(c: FactContext)
    ensures InBlock(KindFacts(c), SharedBlock)
  {
  }

  lemma DebitFactsInBlock(a: Action, c: FactContext)
    requires a.ScheduleDebit?
    ensures InBlock(DebitFacts(a, c), DebitBlock)
  {
  }

  lemma ConsentFactsInBlock(a: Action, c: FactContext)
    requires a.SendMessage?
    ensures InBlock(ConsentFacts(a, c), ConsentBlock)
  {
  }

  lemma TimingFactsInBlock(w: World, c: FactContext)
    ensures InBlock(TimingFacts(w, c), TimingBlock)
  {
  }

  lemma MessageFactsInBlock(w: World, a: Action)
    requires a.SendMessage?
    ensures InBlock(MessageFacts(w, a), MessageBlock)
  {
  }

  /** Every block of the bundle is read back unchanged. */
  lemma BundleExtendsItsBlocks(w: World, e: Envelope, c: FactContext)
    ensures Extends(FactsFor(w, e, c), SharedFacts(w, e, c))
    ensures e.action.ScheduleDebit? ==> Extends(FactsFor(w, e, c), DebitFacts(e.action, c))
    ensures e.action.SendMessage? ==> Extends(FactsFor(w, e, c), ConsentFacts(e.action, c))
    ensures e.action.SendMessage? ==> Extends(FactsFor(w, e, c), TimingFacts(w, c))
    ensures e.action.SendMessage? ==> Extends(FactsFor(w, e, c), MessageFacts(w, e.action))
  {
    SharedFactsInBlock(w, e, c);
    if e.action.ScheduleDebit? {
      DebitFactsInBlock(e.action, c);
      UnionExtendsBoth(SharedFacts(w, e, c), DebitFacts(e.action, c));
    } else {
      ConsentFactsInBlock(e.action, c);
      TimingFactsInBlock(w, c);
      MessageFactsInBlock(w, e.action);
      MessageBundle(SharedFacts(w, e, c), ConsentFacts(e.action, c), TimingFacts(w, c), MessageFacts(w, e.action));
    }
  }

  lemma UnionExtendsBoth(a: Facts, b: Facts)
    requires a.Keys !! b.Keys
    ensures Extends(a + b, a) && Extends(a + b, b)
  {
  }

  lemma MessageBundle(a: Facts, b: Facts, c: Facts, d: Facts)
    requires InBlock(a, SharedBlock) && InBlock(b, ConsentBlock) && InBlock(c, TimingBlock) && InBlock(d, MessageBlock)
    ensures var f := a + (b + c + d); Extends(f, a) && Extends(f, b) && Extends(f, c) && Extends(f, d)
  {
  }

  predicate Flag(f: Facts, k: FactKey, b: bool) {
    k in f && f[k] == BoolValue(b)
  }

  predicate Count(f: Facts, k: FactKey, n: int) {
    k in f && f[k] == IntValue(n)
  }

  lemma HoldsGateReads(t: Thresholds, f: Facts, bs: seq<bool>)
    requires |bs| == |HOLD_FACTS|
    requires forall i :: 0 <= i < |HOLD_FACTS| ==> Flag(f, HOLD_FACTS[i], bs[i])
    ensures Answerable(HoldsGate(t), f)
    ensures Fires(HoldsGate(t), f) <==> true in bs
  {
    hide Answerable, Fires;
    var ps := AllTrueTests(HOLD_FACTS);
    forall i | 0 <= i < |ps| ensures LeafReads(ps[i], f, bs[i]) {
      assert Flag(f, HOLD_FACTS[i], bs[i]);
    }
    GateOfLeaves(HoldsGate(t), f, bs);
  }

  /** The holds gate over the holds, the records and the case. */
  lemma HoldsGateMeaning(t: Thresholds, w: World, e: Envelope, c: FactContext)
    ensures Answerable(HoldsGate(t), FactsFor(w, e, c))
    ensures Fires(HoldsGate(t), FactsFor(w, e, c)) <==> OnHold(c)
  {
    hide Answerable, Fires, FactsFor, OnHold, HoldsBlock;
    HoldsGateAnswers(t, w, e, c);
    HoldFieldByField(c);
  }

  lemma HoldsGateAnswers(t: Thresholds, w: World, e: Envelope, c: FactContext)
    ensures Answerable(HoldsGate(t), FactsFor(w, e, c))
    ensures Fires(HoldsGate(t), FactsFor(w, e, c)) <==> HoldsBlock(c)
  {
    hide Answerable, Fires, FactsFor;
    BundleExtendsItsBlocks(w, e, c);
    SharedLookups(w, e, c);
    var bs := HoldBits(c);
    HoldsGateReads(t, FactsFor(w, e, c), bs);
    assert bs[0] in bs && bs[1] in bs && bs[6] in bs && bs[7] in bs;
  }

  function HoldBits(c: FactContext): (bits: seq<bool>)
    ensures |bits| == |HOLD_FACTS|
  {
    [OptedOut(c), HasOpenHold(c), HasOpenHoldOf(c, HardStopDispute), HasOpenHoldOf(c, HardStopHardship),
     HasOpenHoldOf(c, HardStopLegalHold), HasOpenHoldOf(c, HardStopChargeback),
     c.riskCase.cohortId.Some?, c.riskCase.incidentId.Some?]
  }

  lemma SharedLookups(w: World, e: Envelope, c: FactContext)
    ensures var f := SharedFacts(w, e, c);
            && (forall i :: 0 <= i < |HOLD_FACTS| ==> Flag(f, HOLD_FACTS[i], HoldBits(c)[i]))
            && Flag(f, IsOptedOut, OptedOut(c))
            && Flag(f, IdempotencyKeyAlreadyUsed, KeyOf(w.digest, e) in c.usedIdempotencyKeys)
            && Flag(f, ObligationAlreadySettled, !Outstanding(c.obligation))
  {
    hide HoldFacts, HoldBits, OptedOut, Outstanding, IntegrityFacts, Flag;
    HoldLookups(c);
    IntegrityLookups(w, e, c);
    var a, b := HoldFacts(c)[IsOptedOut := BoolValue(OptedOut(c))], IntegrityFacts(w, e, c);
    var segment := EnumMember(SegmentValue(c.riskCase.segment));
    forall i | 0 <= i < |HOLD_FACTS| ensures Flag(SharedFacts(w, e, c), HOLD_FACTS[i], HoldBits(c)[i]) {
      KeptBeside(a, b, segment, HOLD_FACTS[i], HoldBits(c)[i]);
    }
    assert Flag(a, IsOptedOut, OptedOut(c)) by { OptOutIsSet(HoldFacts(c), OptedOut(c)); }
    KeptBeside(a, b, segment, IsOptedOut, OptedOut(c));
    KeptAfter(a, b, segment, IdempotencyKeyAlreadyUsed, KeyOf(w.digest, e) in c.usedIdempotencyKeys);
    KeptAfter(a, b, segment, ObligationAlreadySettled, !Outstanding(c.obligation));
  }

  lemma OptOutIsSet(f: Facts, b: bool)
    ensures Flag(f[IsOptedOut := BoolValue(b)], IsOptedOut, b)
  {
  }

  lemma IntegrityLookups(w: World, e: Envelope, c: FactContext)
    ensures var f := IntegrityFacts(w, e, c);
            && f.Keys == {IdempotencyKeyAlreadyUsed, ObligationAlreadySettled}
            && Flag(f, IdempotencyKeyAlreadyUsed, KeyOf(w.digest, e) in c.usedIdempotencyKeys)
            && Flag(f, ObligationAlreadySettled, !Outstanding(c.obligation))
  {
  }

  lemma KeptBeside(a: Facts, b: Facts, segment: FactValue, k: FactKey, x: bool)
    requires Flag(a, k, x) && k !in b && k != SegmentFact
    ensures Flag((a + b)[SegmentFact := segment], k, x)
  {
  }

  lemma KeptAfter(a: Facts, b: Facts, segment: FactValue, k: FactKey, x: bool)
    requires Flag(b, k, x) && k != SegmentFact
    ensures Flag((a + b)[SegmentFact := segment], k, x)
  {
  }

  lemma HoldLookups(c: FactContext)
    ensures var f := HoldFacts(c)[IsOptedOut := BoolValue(OptedOut(c))];
            forall i :: 0 <= i < |HOLD_FACTS| ==> Flag(f, HOLD_FACTS[i], HoldBits(c)[i])
  {
    hide OptedOut, HasOpenHoldOf, HasOpenHold, KindFacts;
    KindLookups(c);
  }

  lemma KindLookups(c: FactContext)
    ensures Flag(KindFacts(c), HasOpenDispute, HasOpenHoldOf(c, HardStopDispute))
    ensures Flag(KindFacts(c), HasHardshipFlag, HasOpenHoldOf(c, HardStopHardship))
    ensures Flag(KindFacts(c), HasLegalHold, HasOpenHoldOf(c, HardStopLegalHold))
    ensures Flag(KindFacts(c), HasOpenChargeback, HasOpenHoldOf(c, HardStopChargeback))
  {
    hide HasOpenHoldOf;
  }

  lemma IntegrityGateReads(t: Thresholds, f: Facts, b0: bool, b1: bool)
    requires Flag(f, IdempotencyKeyAlreadyUsed, b0) && Flag(f, ObligationAlreadySettled, b1)
    ensures Answerable(IntegrityGate(t), f)
    ensures Fires(IntegrityGate(t), f) <==> b0 || b1
  {
    hide Answerable, Fires;
    var bs := [b0, b1];
    GateOfLeaves(IntegrityGate(t), f, bs);
    assert bs[0] in bs && bs[1] in bs;
  }

  lemma IntegrityGateMeaning(t: Thresholds, w: World, e: Envelope, c: FactContext)
    ensures Answerable(IntegrityGate(t), FactsFor(w, e, c))
    ensures Fires(IntegrityGate(t), FactsFor(w, e, c)) <==> IntegrityBlocks(w, e, c)
  {
    hide Answerable, Fires, FactsFor;
    BundleExtendsItsBlocks(w, e, c);
    SharedLookups(w, e, c);
    IntegrityGateReads(t, FactsFor(w, e, c), KeyOf(w.digest, e) in c.usedIdempotencyKeys, !Outstanding(c.obligation));
  }

  lemma RailGateReads(t: Thresholds, f: Facts, b0: bool, b1: bool, n: int)
    requires Flag(f, MandateIsDebitable, b0) && Flag(f, LastDeclineWasHard, b1) && Count(f, NetworkRetryCountThisWindow, n)
    ensures Answerable(RailGate(t), f)
    ensures Fires(RailGate(t), f) <==> !b0 || b1 || n >= MAX_DEBIT_ATTEMPTS_PER_RECOVERY_WINDOW
  {
    hide Answerable, Fires;
    var bs := [!b0, b1, n >= MAX_DEBIT_ATTEMPTS_PER_RECOVERY_WINDOW];
    GateOfLeaves(RailGate(t), f, bs);
    assert bs[0] in bs && bs[1] in bs && bs[2] in bs;
  }

  lemma RailGateMeaning(t: Thresholds, w: World, e: Envelope, c: FactContext)
    requires e.action.ScheduleDebit?
    ensures Answerable(RailGate(t), FactsFor(w, e, c))
    ensures Fires(RailGate(t), FactsFor(w, e, c)) <==> RailBlocks(e.action, c)
  {
    hide Answerable, Fires, FactsFor;
    BundleExtendsItsBlocks(w, e, c);
    RailGateReads(t, FactsFor(w, e, c), MandateAllows(e.action.rail, e.action.amount, c.mandate),
                  LastDeclineHard(c.riskCase), c.debitAttemptsThisWindow);
  }

  lemma FinancialGateMeaning(t: Thresholds, w: World, e: Envelope, c: FactContext)
    requires e.action.ScheduleDebit?
    ensures Answerable(FinancialAuthorityGate(t), FactsFor(w, e, c))
    ensures Fires(FinancialAuthorityGate(t), FactsFor(w, e, c)) <==> e.action.amount > t.afaRequiredAbove
  {
    BundleExtendsItsBlocks(w, e, c);
  }

  lemma ConsentGateReads(t: Thresholds, f: Facts, b0: bool, b1: bool, b2: bool, b3: bool, b4: bool, b5: bool)
    requires Flag(f, IsOptedOut, b0) && Flag(f, IsOnDncList, b1) && Flag(f, ConsentRecordExists, b2)
    requires Flag(f, HasChannelConsent, b3) && Flag(f, DpdpPurposeCoversAction, b4) && Flag(f, ConsentLanguageMatches, b5)
    ensures Answerable(ConsentGate(t), f)
    ensures Fires(ConsentGate(t), f) <==> b0 || b1 || !b2 || !b3 || !b4 || !b5
  {
    hide Answerable, Fires;
    var bs := [b0, b1, !b2, !b3, !b4, !b5];
    GateOfLeaves(ConsentGate(t), f, bs);
    assert bs[0] in bs && bs[1] in bs && bs[2] in bs && bs[3] in bs && bs[4] in bs && bs[5] in bs;
  }

  lemma ConsentLookups(a: Action, c: FactContext)
    requires a.SendMessage?
    ensures var f := ConsentFacts(a, c);
            var record := if c.consent.Some? then RecordFor(c.consent.value.records, a.channel) else None;
            && Flag(f, IsOnDncList, c.consent.Some? && c.consent.value.onDncList)
            && Flag(f, ConsentRecordExists, record.Some?)
            && Flag(f, HasChannelConsent, HasConsent(c.consent, a.channel))
            && Flag(f, DpdpPurposeCoversAction, record.Some? && record.value.dpdpPurpose == PurposeOf(a.intent))
            && Flag(f, ConsentLanguageMatches, c.consent.Some? && c.consent.value.language == a.language)
  {
  }

  lemma OptOutFieldByField(c: FactContext)
    ensures AskedToStop(c) <==> OptedOut(c)
  {
    if h :| h in c.holds && h.kind == HardStopOptOut && h.releasedAt.None? && h.openedAt <= c.now {
      assert IsOpenHold(h, c.now);
    }
    if r :| c.consent.Some? && r in c.consent.value.records && (!r.granted || r.withdrawnAt.Some?) {
      assert !r.IsEffective();
    }
  }

  lemma ConsentFieldByField(a: Action, consent: Option<ConsentProfile>)
    requires a.SendMessage?
    ensures ConsentGiven(a, consent) <==> ConsentCovers(a, consent)
  {
    if consent.Some? {
      CoveringRecord(a, consent.value);
    }
  }

  /** The consent gate over the payer's own records, list, language and holds. */
  lemma ConsentGateMeaning(t: Thresholds, w: World, e: Envelope, c: FactContext)
    requires e.action.SendMessage?
    ensures Answerable(ConsentGate(t), FactsFor(w, e, c))
    ensures Fires(ConsentGate(t), FactsFor(w, e, c)) <==> AskedToStop(c) || !ConsentGiven(e.action, c.consent)
  {
    hide Answerable, Fires, FactsFor, OptedOut, ConsentCovers, AskedToStop, ConsentGiven;
    ConsentGateAnswers(t, w, e, c);
    OptOutFieldByField(c);
    ConsentFieldByField(e.action, c.consent);
  }

  lemma ConsentGateAnswers(t: Thresholds, w: World, e: Envelope, c: FactContext)
    requires e.action.SendMessage?
    ensures Answerable(ConsentGate(t), FactsFor(w, e, c))
    ensures Fires(ConsentGate(t), FactsFor(w, e, c)) <==> OptedOut(c) || !ConsentCovers(e.action, c.consent)
  {
    hide Answerable, Fires, FactsFor;
    var a := e.action;
    var record := if c.consent.Some? then RecordFor(c.consent.value.records, a.channel) else None;
    BundleExtendsItsBlocks(w, e, c);
    SharedLookups(w, e, c);
    ConsentLookups(a, c);
    ConsentGateReads(t, FactsFor(w, e, c), OptedOut(c), c.consent.Some? && c.consent.value.onDncList, record.Some?,
                     HasConsent(c.consent, a.channel),
                     record.Some? && record.value.dpdpPurpose == PurposeOf(a.intent),
                     c.consent.Some? && c.consent.value.language == a.language);
  }

  lemma TimingGateReads(t: Thresholds, f: Facts, b0: bool, b1: bool)
    requires Flag(f, IsWithinQuietHours, b0) && Flag(f, IsDeclaredHoliday, b1)
    ensures Answerable(TimingGate(t), f)
    ensures Fires(TimingGate(t), f) <==> !b0 || b1
  {
    hide Answerable, Fires;
    var bs := [!b0, b1];
    GateOfLeaves(TimingGate(t), f, bs);
    assert bs[0] in bs && bs[1] in bs;
  }

  lemma TimingLookups(w: World, c: FactContext)
    ensures var f := TimingFacts(w, c);
            var window := GoverningWindow(c.consent, c.thresholds);
            && Flag(f, IsWithinQuietHours, WithinWindow(w, c.now, window))
            && Flag(f, IsDeclaredHoliday, w.localDate(c.now, window.zone) in c.declaredHolidays)
            && Count(f, ContactsOnChannelLast7d, c.contactsOnChannelLast7d)
            && Count(f, ContactsTotalThisCase, c.contactsTotalThisCase)
  {
  }

  lemma TimingGateMeaning(t: Thresholds, w: World, e: Envelope, c: FactContext)
    requires e.action.SendMessage?
    ensures Answerable(TimingGate(t), FactsFor(w, e, c))
    ensures Fires(TimingGate(t), FactsFor(w, e, c)) <==> TimingBlocks(w, c)
  {
    hide Answerable, Fires, FactsFor;
    var window := GoverningWindow(c.consent, c.thresholds);
    BundleExtendsItsBlocks(w, e, c);
    TimingLookups(w, c);
    TimingGateReads(t, FactsFor(w, e, c), WithinWindow(w, c.now, window),
                    w.localDate(c.now, window.zone) in c.declaredHolidays);
  }

  lemma FrequencyGateReads(t: Thresholds, f: Facts, m: int, n: int)
    requires Count(f, ContactsOnChannelLast7d, m) && Count(f, ContactsTotalThisCase, n)
    ensures Answerable(FrequencyGate(t), f)
    ensures Fires(FrequencyGate(t), f) <==> m >= t.maxContactsPerChannelPer7d || n >= t.maxContactsTotalPerCase
  {
    hide Answerable, Fires;
    var bs := [m >= t.maxContactsPerChannelPer7d, n >= t.maxContactsTotalPerCase];
    GateOfLeaves(FrequencyGate(t), f, bs);
    assert bs[0] in bs && bs[1] in bs;
  }

  lemma FrequencyGateMeaning(t: Thresholds, w: World, e: Envelope, c: FactContext)
    requires e.action.SendMessage?
    ensures Answerable(FrequencyGate(t), FactsFor(w, e, c))
    ensures Fires(FrequencyGate(t), FactsFor(w, e, c)) <==> FrequencyBlocks(t, c)
  {
    hide Answerable, Fires, FactsFor;
    BundleExtendsItsBlocks(w, e, c);
    TimingLookups(w, c);
    FrequencyGateReads(t, FactsFor(w, e, c), c.contactsOnChannelLast7d, c.contactsTotalThisCase);
  }

  lemma ContentGateReads(t: Thresholds, f: Facts, b0: bool, b1: bool, b2: bool)
    requires Flag(f, ContainsBannedPhrase, b0) && Flag(f, HasFreeTextSlot, b1) && Flag(f, TemplateIsDltRegistered, b2)
    ensures Answerable(ContentGate(t), f)
    ensures Fires(ContentGate(t), f) <==> b0 || b1 || !b2
  {
    hide Answerable, Fires;
    var bs := [b0, b1, !b2];
    GateOfLeaves(ContentGate(t), f, bs);
    assert bs[0] in bs && bs[1] in bs && bs[2] in bs;
  }

  lemma ContentGateMeaning(t: Thresholds, w: World, e: Envelope, c: FactContext)
    requires e.action.SendMessage?
    ensures Answerable(ContentGate(t), FactsFor(w, e, c))
    ensures Fires(ContentGate(t), FactsFor(w, e, c)) <==> ContentBlocks(w, e.action)
  {
    hide Answerable, Fires, FactsFor;
    var a := e.action;
    BundleExtendsItsBlocks(w, e, c);
    ContentGateReads(t, FactsFor(w, e, c), exists s :: s in a.slots && w.isBanned(s.value),
                     exists s :: s in a.slots && s.freeText, IsDltRegistered(a.templateId));
  }

  // ------------------------------------------------------------ the two governed verbs

  /** Eight gates, one per category, in the order the rules are emitted. */
  predicate OnePerCategory(gs: seq<GateSpec>) {
    && |gs| == 8
    && gs[0].category == ConsentAndChannel && gs[1].category == Timing && gs[2].category == Frequency
    && gs[3].category == RailAndNetwork && gs[4].category == Content && gs[5].category == FinancialAuthority
    && gs[6].category == Holds && gs[7].category == Integrity
    && (forall i :: 0 <= i < 8 ==> GateShape(gs[i]))
    && (forall i :: 0 <= i < 8 ==> gs[i].effect == if i == 5 then AllowWithApproval else Deny)
  }

  lemma MinimalGatesShape(t: Thresholds)
    ensures OnePerCategory(MinimalGates(t))
  {
  }

  lemma EveryCategoryHasAGate(gs: seq<GateSpec>, k: PolicyCategory)
    requires OnePerCategory(gs)
    ensures exists g :: g in gs && g.category == k
  {
    assert gs[0] in gs && gs[1] in gs && gs[2] in gs && gs[3] in gs;
    assert gs[4] in gs && gs[5] in gs && gs[6] in gs && gs[7] in gs;
  }

  /** Which of the eight positions a verb must answer to. */
  predicate Governs(t: ActionType, i: int) {
    0 <= i < 8 && CategoryAt(i) in CategoriesOf(t)
  }

  function CategoryAt(i: int): PolicyCategory {
    if i == 0 then ConsentAndChannel else if i == 1 then Timing else if i == 2 then Frequency
    else if i == 3 then RailAndNetwork else if i == 4 then Content else if i == 5 then FinancialAuthority
    else if i == 6 then Holds else Integrity
  }

  lemma PositionsReady(gs: seq<GateSpec>, q: Request, facts: Facts)
    requires OnePerCategory(gs)
    requires forall i :: Governs(q.actionType, i) ==> Answerable(gs[i], facts)
    ensures Ready(gs, q, facts)
  {
    forall k | k in CategoriesOf(q.actionType) ensures exists g :: g in gs && g.category == k {
      EveryCategoryHasAGate(gs, k);
    }
    RelevantGatesAnswer(gs, q, facts);
  }

  lemma RelevantGatesAnswer(gs: seq<GateSpec>, q: Request, facts: Facts)
    requires OnePerCategory(gs)
    requires forall i :: Governs(q.actionType, i) ==> Answerable(gs[i], facts)
    ensures forall g :: g in gs && Relevant(g, q) ==> Answerable(g, facts)
  {
    forall g | g in gs && Relevant(g, q) ensures Answerable(g, facts) {
      var i :| 0 <= i < |gs| && gs[i] == g;
      assert gs[i].category == CategoryAt(i);
      assert Governs(q.actionType, i);
    }
  }

  lemma PositionsFire(gs: seq<GateSpec>, q: Request, facts: Facts)
    requires OnePerCategory(gs)
    ensures FiresSomewhere(gs, q, facts, Deny) <==>
              exists i :: Governs(q.actionType, i) && i != 5 && Fires(gs[i], facts)
    ensures FiresSomewhere(gs, q, facts, AllowWithApproval) <==>
              Governs(q.actionType, 5) && Fires(gs[5], facts)
  {
    forall i | 0 <= i < 8 ensures gs[i] in gs && (Governs(q.actionType, i) <==> Relevant(gs[i], q)) {
      assert gs[i].category == CategoryAt(i);
    }
    if FiresSomewhere(gs, q, facts, Deny) {
      var g :| g in gs && Relevant(g, q) && g.effect == Deny && Fires(g, facts);
      var i :| 0 <= i < |gs| && gs[i] == g;
      assert Governs(q.actionType, i) && i != 5 && Fires(gs[i], facts);
    }
    if FiresSomewhere(gs, q, facts, AllowWithApproval) {
      var g :| g in gs && Relevant(g, q) && g.effect == AllowWithApproval && Fires(g, facts);
      var i :| 0 <= i < |gs| && gs[i] == g;
    }
  }

  /** What eight such gates decide for a debit. */
  lemma DebitGatesDecide(gs: seq<GateSpec>, q: Request, facts: Facts)
    requires OnePerCategory(gs) && q.actionType == ScheduleDebitType
    requires Answerable(gs[3], facts) && Answerable(gs[5], facts) && Answerable(gs[6], facts) && Answerable(gs[7], facts)
    ensures var r := Evaluate(RulesOf(gs), q, facts);
            var denied := Fires(gs[3], facts) || Fires(gs[6], facts) || Fires(gs[7], facts);
            && r.Success? && r.value.silentCategories == {} && r.value.unevaluableRuleIds == []
            && (r.value.decision.effect == Deny <==> denied)
            && (r.value.decision.effect == AllowWithApproval <==> !denied && Fires(gs[5], facts))
            && (r.value.decision.effect == Allow <==> !denied && !Fires(gs[5], facts))
  {
    hide Evaluate, RulesOf, Answerable, Fires, Ready, FiresSomewhere, OnePerCategory;
    assert forall i :: Governs(q.actionType, i) <==> i == 3 || i == 5 || i == 6 || i == 7;
    PositionsReady(gs, q, facts);
    PositionsFire(gs, q, facts);
    GatesDecide(gs, q, facts);
  }

  /** What eight such gates decide for a message. */
  lemma MessageGatesDecide(gs: seq<GateSpec>, q: Request, facts: Facts)
    requires OnePerCategory(gs) && q.actionType == SendMessageType
    requires Answerable(gs[0], facts) && Answerable(gs[1], facts) && Answerable(gs[2], facts)
    requires Answerable(gs[4], facts) && Answerable(gs[6], facts) && Answerable(gs[7], facts)
    ensures var r := Evaluate(RulesOf(gs), q, facts);
            var denied := Fires(gs[0], facts) || Fires(gs[1], facts) || Fires(gs[2], facts)
                          || Fires(gs[4], facts) || Fires(gs[6], facts) || Fires(gs[7], facts);
            && r.Success? && r.value.silentCategories == {} && r.value.unevaluableRuleIds == []
            && (r.value.decision.effect == Deny <==> denied)
            && (r.value.decision.effect == Allow <==> !denied)
  {
    hide Evaluate, RulesOf, Answerable, Fires, Ready, FiresSomewhere, OnePerCategory;
    assert forall i :: Governs(q.actionType, i) <==> i == 0 || i == 1 || i == 2 || i == 4 || i == 6 || i == 7;
    PositionsReady(gs, q, facts);
    PositionsFire(gs, q, facts);
    GatesDecide(gs, q, facts);
  }

  lemma HoldFieldByField(c: FactContext)
    ensures OnHold(c) <==> HoldsBlock(c)
  {
    hide AskedToStop, OptedOut;
    OptOutFieldByField(c);
    if h :| h in c.holds && h.releasedAt.None? && h.openedAt <= c.now {
      assert IsOpenHold(h, c.now);
    }
  }

  lemma DebitFieldByField(w: World, e: Envelope, c: FactContext)
    requires e.action.ScheduleDebit?
    ensures RailRefuses(e.action, c) <==> RailBlocks(e.action, c)
    ensures AlreadyDone(w, e, c) <==> IntegrityBlocks(w, e, c)
  {
  }

  lemma {:induction false} FirstRecord(records: seq<ConsentRecord>, channel: Channel, k: nat)
    requires k < |records| && records[k].channel == channel
    requires forall j :: 0 <= j < k ==> records[j].channel != channel
    ensures RecordFor(records, channel) == Some(records[k])
  {
    if k > 0 {
      FirstRecord(records[1..], channel, k - 1);
    }
  }

  lemma {:induction false} FirstRecordIsThere(records: seq<ConsentRecord>, channel: Channel) returns (k: nat)
    requires RecordFor(records, channel).Some?
    ensures k < |records| && records[k] == RecordFor(records, channel).value && records[k].channel == channel
    ensures forall j :: 0 <= j < k ==> records[j].channel != channel
  {
    if records[0].channel == channel {
      k := 0;
    } else {
      var later := FirstRecordIsThere(records[1..], channel);
      k := later + 1;
      forall j | 0 <= j < k ensures records[j].channel != channel {
        assert j > 0 ==> records[j] == records[1..][j - 1];
      }
    }
  }

  lemma PurposeFitsExactly(purpose: Purpose, intent: MessageIntent)
    ensures PurposeFits(purpose, intent) <==> purpose == PurposeOf(intent)
  {
  }

  lemma CoveringRecord(a: Action, p: ConsentProfile)
    requires a.SendMessage?
    ensures ConsentCovers(a, Some(p)) <==>
              !p.onDncList && p.language == a.language && RecordCovers(p, a.channel, a.intent)
  {
    var found := RecordFor(p.records, a.channel);
    if found.Some? {
      PurposeFitsExactly(found.value.dpdpPurpose, a.intent);
      var k := FirstRecordIsThere(p.records, a.channel);
    }
    forall k | 0 <= k < |p.records| && p.records[k].channel == a.channel
               && (forall j :: 0 <= j < k ==> p.records[j].channel != a.channel)
      ensures found == Some(p.records[k])
    {
      FirstRecord(p.records, a.channel, k);
    }
  }

  lemma MessageFieldByField(t: Thresholds, w: World, e: Envelope, c: FactContext)
    requires e.action.SendMessage?
    ensures AskedToStop(c) <==> OptedOut(c)
    ensures ConsentGiven(e.action, c.consent) <==> ConsentCovers(e.action, c.consent)
    ensures InHours(w, c) <==> !TimingBlocks(w, c)
    ensures Unclean(w, e.action) <==> ContentBlocks(w, e.action)
    ensures AlreadyDone(w, e, c) <==> IntegrityBlocks(w, e, c)
  {
    hide AskedToStop, OptedOut, ConsentGiven, ConsentCovers;
    OptOutFieldByField(c);
    ConsentFieldByField(e.action, c.consent);
  }

  /** A proposed debit, under any thresholds: denied exactly when something holds the case
      back, a mandate is needed and missing, the last decline was hard or three attempts are
      queued; sent to a human exactly when only the AFA ceiling is exceeded; and allowed
      otherwise. Nothing is unevaluable and no category is silent. */
  lemma DebitVerdict(t: Thresholds, w: World, e: Envelope, c: FactContext)
    requires e.action.ScheduleDebit?
    ensures var r := Evaluate(RulesOf(MinimalGates(t)), RequestFor(e, c), FactsFor(w, e, c));
            && r.Success? && r.value.silentCategories == {} && r.value.unevaluableRuleIds == []
            && (r.value.decision.effect == Deny <==> DebitRefused(w, e, c))
            && (r.value.decision.effect == AllowWithApproval <==>
                  !DebitRefused(w, e, c) && e.action.amount > t.afaRequiredAbove)
            && (r.value.decision.effect == Allow <==>
                  !DebitRefused(w, e, c) && e.action.amount <= t.afaRequiredAbove)
  {
    hide RailRefuses, OnHold, AlreadyDone, FactsFor, Answerable, Fires, MinimalGates;
    DebitGatesMean(t, w, e, c);
    MinimalGatesShape(t);
    DebitGatesDecide(MinimalGates(t), RequestFor(e, c), FactsFor(w, e, c));
  }

  /** A proposed message is denied exactly when something holds the case back, the payer's
      own records, list, language or hours forbid it, a cap is reached, or its template or
      text is not clean, and is otherwise allowed: it never needs approval. */
  lemma MessageVerdict(t: Thresholds, w: World, e: Envelope, c: FactContext)
    requires e.action.SendMessage?
    ensures var r := Evaluate(RulesOf(MinimalGates(t)), RequestFor(e, c), FactsFor(w, e, c));
            && r.Success? && r.value.silentCategories == {} && r.value.unevaluableRuleIds == []
            && (r.value.decision.effect == Deny <==> MessageRefused(t, w, e, c))
            && (r.value.decision.effect == Allow <==> !MessageRefused(t, w, e, c))
  {
    hide AskedToStop, ConsentGiven, InHours, CapReached, Unclean, OnHold, AlreadyDone, FactsFor, Answerable, Fires, MinimalGates;
    MessageGatesMean(t, w, e, c);
    MinimalGatesShape(t);
    MessageGatesDecide(MinimalGates(t), RequestFor(e, c), FactsFor(w, e, c));
  }

  /** What eight such gates put on record, in order. */
  lemma EightAreHeard(gs: seq<GateSpec>, q: Request, facts: Facts)
    requires |gs| == 8
    ensures Heard(gs, q, facts)
         == HeardFrom(gs[0], q, facts) + HeardFrom(gs[1], q, facts) + HeardFrom(gs[2], q, facts) + HeardFrom(gs[3], q, facts)
            + HeardFrom(gs[4], q, facts) + HeardFrom(gs[5], q, facts) + HeardFrom(gs[6], q, facts) + HeardFrom(gs[7], q, facts)
  {
    hide HeardFrom, Heard;
    assert gs[..8] == gs;
    FourMoreHeard(gs, q, facts, 4);
    FourMoreHeard(gs, q, facts, 0);
    NoGateHeard(q, facts);
  }

  lemma NoGateHeard(q: Request, facts: Facts)
    ensures Heard([], q, facts) == []
  {
  }

  lemma FourMoreHeard(gs: seq<GateSpec>, q: Request, facts: Facts, n: nat)
    requires n + 4 <= |gs|
    ensures Heard(gs[..n + 4], q, facts)
         == Heard(gs[..n], q, facts) + HeardFrom(gs[n], q, facts) + HeardFrom(gs[n + 1], q, facts)
            + HeardFrom(gs[n + 2], q, facts) + HeardFrom(gs[n + 3], q, facts)
  {
    hide HeardFrom, Heard;
    OneMoreHeard(gs, q, facts, n + 4);
    OneMoreHeard(gs, q, facts, n + 3);
    OneMoreHeard(gs, q, facts, n + 2);
    OneMoreHeard(gs, q, facts, n + 1);
  }

  lemma OneMoreHeard(gs: seq<GateSpec>, q: Request, facts: Facts, n: nat)
    requires 0 < n <= |gs|
    ensures Heard(gs[..n], q, facts) == Heard(gs[..n - 1], q, facts) + HeardFrom(gs[n - 1], q, facts)
  {
    assert gs[..n][..n - 1] == gs[..n - 1];
  }

  lemma RecordIsHeard(gs: seq<GateSpec>, q: Request, facts: Facts)
    requires OnePerCategory(gs)
    requires forall i :: Governs(q.actionType, i) ==> Answerable(gs[i], facts)
    ensures Evaluate(RulesOf(gs), q, facts).Success?
    ensures var d := Evaluate(RulesOf(gs), q, facts).value.decision;
            && d.verdicts == Heard(gs, q, facts) && d == Combine(Heard(gs, q, facts)) && !d.failedClosed
  {
    hide Evaluate, RulesOf, Answerable, Combine, Heard, OnePerCategory;
    PositionsReady(gs, q, facts);
    GatesEvaluate(gs, q, facts);
    RelevantGatesAnswer(gs, q, facts);
    GatesHaveShape(gs);
    forall i | 0 <= i < |gs| ensures GateShape(gs[i]) && (Relevant(gs[i], q) ==> Answerable(gs[i], facts)) {
      assert gs[i] in gs;
    }
    GatesAreHeardInOrder(gs, q, facts);
    CombineKeepsTheRecord(VerdictsOf(Selected(RulesOf(gs), q), facts));
  }

  lemma GatesHaveShape(gs: seq<GateSpec>)
    requires OnePerCategory(gs)
    ensures |gs| == 8 && forall i :: 0 <= i < 8 ==> GateShape(gs[i])
    ensures forall i :: 0 <= i < 8 ==> gs[i].category == CategoryAt(i)
  {
  }

  /** Of eight such gates a debit hears four. */
  lemma DebitIsHeard(gs: seq<GateSpec>, q: Request, facts: Facts)
    requires OnePerCategory(gs) && q.actionType == ScheduleDebitType
    ensures Heard(gs, q, facts)
         == [GateVerdict(gs[3], facts), GateVerdict(gs[5], facts), GateVerdict(gs[6], facts), GateVerdict(gs[7], facts)]
  {
    hide OnePerCategory, GateVerdict, Heard;
    GatesHaveShape(gs);
    EightAreHeard(gs, q, facts);
  }

  /** And a message six. */
  lemma MessageIsHeard(gs: seq<GateSpec>, q: Request, facts: Facts)
    requires OnePerCategory(gs) && q.actionType == SendMessageType
    ensures Heard(gs, q, facts)
         == [GateVerdict(gs[0], facts), GateVerdict(gs[1], facts), GateVerdict(gs[2], facts),
             GateVerdict(gs[4], facts), GateVerdict(gs[6], facts), GateVerdict(gs[7], facts)]
  {
    hide OnePerCategory, GateVerdict, Heard;
    GatesHaveShape(gs);
    EightAreHeard(gs, q, facts);
  }

  function GateIds(gs: seq<GateSpec>): seq<(RuleId, RuleId)> {
    seq(|gs|, i requires 0 <= i < |gs| => (gs[i].denyRuleId, gs[i].allowRuleId))
  }

  /** The denying and the permissive rule of each gate, by rank of their names. */
  lemma ShippedIds(t: Thresholds)
    ensures GateIds(MinimalGates(t)) == [(0, 1), (14, 15), (6, 7), (12, 13), (2, 3), (4, 5), (8, 9), (10, 11)]
    ensures MinimalGates(t)[5].requiresTier == Some(T2)
  {
  }

  /** Only the approval gate asks for a tier, and only when it fires. */
  lemma TierOfADebit(gs: seq<GateSpec>, facts: Facts)
    requires OnePerCategory(gs) && gs[5].requiresTier == Some(T2)
    requires var vs := [GateVerdict(gs[3], facts), GateVerdict(gs[5], facts), GateVerdict(gs[6], facts), GateVerdict(gs[7], facts)];
             !Combine(vs).failedClosed
    ensures var vs := [GateVerdict(gs[3], facts), GateVerdict(gs[5], facts), GateVerdict(gs[6], facts), GateVerdict(gs[7], facts)];
            Combine(vs).requiresTier == if Fires(gs[5], facts) then Some(T2) else None
  {
    hide Combine, Fires;
    var vs := [GateVerdict(gs[3], facts), GateVerdict(gs[5], facts), GateVerdict(gs[6], facts), GateVerdict(gs[7], facts)];
    TiersInOrder(vs);
    assert vs[0].requiresTier.None? && vs[2].requiresTier.None? && vs[3].requiresTier.None?;
    assert AsksFor(vs, T2) <==> Fires(gs[5], facts) by {
      if Fires(gs[5], facts) {
        assert vs[1] in vs;
      }
    }
  }

  /** The record of the ruling on a debit: four gates, each by its denying or its permissive
      rule, and the tier the human needs. */
  lemma DebitRecord(t: Thresholds, w: World, e: Envelope, c: FactContext)
    requires e.action.ScheduleDebit?
    ensures var r := Evaluate(RulesOf(MinimalGates(t)), RequestFor(e, c), FactsFor(w, e, c));
            r.Success? && |r.value.decision.verdicts| == 4
            && var vs := r.value.decision.verdicts;
               && vs[0].ruleId == (if RailRefuses(e.action, c) then 12 else 13)
               && vs[1].ruleId == (if e.action.amount > t.afaRequiredAbove then 4 else 5)
               && vs[2].ruleId == (if OnHold(c) then 8 else 9)
               && vs[3].ruleId == (if AlreadyDone(w, e, c) then 10 else 11)
    ensures Evaluate(RulesOf(MinimalGates(t)), RequestFor(e, c), FactsFor(w, e, c)).value.decision.requiresTier
         == if e.action.amount > t.afaRequiredAbove then Some(T2) else None
  {
    hide DebitRefused, RailRefuses, OnHold, AlreadyDone, Evaluate, FactsFor, Answerable, Fires, HoldsBlock, RailBlocks,
         IntegrityBlocks, Combine, OnePerCategory, Heard, RulesOf, MinimalGates;
    var gs, q, facts := MinimalGates(t), RequestFor(e, c), FactsFor(w, e, c);
    DebitGatesMean(t, w, e, c);
    MinimalGatesShape(t);
    ShippedIds(t);
    assert forall i :: Governs(q.actionType, i) <==> i == 3 || i == 5 || i == 6 || i == 7;
    RecordIsHeard(gs, q, facts);
    DebitIsHeard(gs, q, facts);
    TierOfADebit(gs, facts);
    assert forall i :: 0 <= i < 8 ==> GateIds(gs)[i] == (gs[i].denyRuleId, gs[i].allowRuleId);
  }

  /** Each gate of a debit, by position. */
  lemma DebitGatesMean(t: Thresholds, w: World, e: Envelope, c: FactContext)
    requires e.action.ScheduleDebit?
    ensures var gs, facts := MinimalGates(t), FactsFor(w, e, c);
            && |gs| == 8
            && Answerable(gs[3], facts) && Answerable(gs[5], facts) && Answerable(gs[6], facts) && Answerable(gs[7], facts)
            && (Fires(gs[3], facts) <==> RailRefuses(e.action, c))
            && (Fires(gs[5], facts) <==> e.action.amount > t.afaRequiredAbove)
            && (Fires(gs[6], facts) <==> OnHold(c))
            && (Fires(gs[7], facts) <==> AlreadyDone(w, e, c))
  {
    hide RailRefuses, OnHold, AlreadyDone, FactsFor, Answerable, Fires, HoldsBlock, RailBlocks, IntegrityBlocks;
    RailGateMeaning(t, w, e, c);
    FinancialGateMeaning(t, w, e, c);
    HoldsGateAnswers(t, w, e, c);
    IntegrityGateMeaning(t, w, e, c);
    DebitFieldByField(w, e, c);
    HoldFieldByField(c);
  }

  lemma MessageGatesMean(t: Thresholds, w: World, e: Envelope, c: FactContext)
    requires e.action.SendMessage?
    ensures var gs, facts := MinimalGates(t), FactsFor(w, e, c);
            && |gs| == 8
            && Answerable(gs[0], facts) && Answerable(gs[1], facts) && Answerable(gs[2], facts)
            && Answerable(gs[4], facts) && Answerable(gs[6], facts) && Answerable(gs[7], facts)
            && (Fires(gs[0], facts) <==> AskedToStop(c) || !ConsentGiven(e.action, c.consent))
            && (Fires(gs[1], facts) <==> !InHours(w, c))
            && (Fires(gs[2], facts) <==> CapReached(t, c))
            && (Fires(gs[4], facts) <==> Unclean(w, e.action))
            && (Fires(gs[6], facts) <==> OnHold(c))
            && (Fires(gs[7], facts) <==> AlreadyDone(w, e, c))
  {
    hide OnHold, AlreadyDone, FactsFor, Answerable, Fires, HoldsBlock, IntegrityBlocks, AskedToStop, OptedOut,
         ConsentGiven, ConsentCovers, InHours, TimingBlocks, Unclean, ContentBlocks;
    ConsentGateAnswers(t, w, e, c);
    TimingGateMeaning(t, w, e, c);
    FrequencyGateMeaning(t, w, e, c);
    ContentGateMeaning(t, w, e, c);
    HoldsGateAnswers(t, w, e, c);
    IntegrityGateMeaning(t, w, e, c);
    MessageFieldByField(t, w, e, c);
    HoldFieldByField(c);
  }

  /** The record of the ruling on a message: six gates, and no tier. */
  lemma MessageRecord(t: Thresholds, w: World, e: Envelope, c: FactContext)
    requires e.action.SendMessage?
    ensures var r := Evaluate(RulesOf(MinimalGates(t)), RequestFor(e, c), FactsFor(w, e, c));
            r.Success? && |r.value.decision.verdicts| == 6
            && var vs := r.value.decision.verdicts;
               && vs[0].ruleId == (if AskedToStop(c) || !ConsentGiven(e.action, c.consent) then 0 else 1)
               && vs[1].ruleId == (if !InHours(w, c) then 14 else 15)
               && vs[2].ruleId == (if CapReached(t, c) then 6 else 7)
               && vs[3].ruleId == (if Unclean(w, e.action) then 2 else 3)
               && vs[4].ruleId == (if OnHold(c) then 8 else 9)
               && vs[5].ruleId == (if AlreadyDone(w, e, c) then 10 else 11)
  {
    hide OnHold, AlreadyDone, Evaluate, FactsFor, Answerable, Fires, AskedToStop, ConsentGiven, InHours, CapReached, Unclean,
         Combine, OnePerCategory, Heard, RulesOf, MinimalGates;
    var gs, q, facts := MinimalGates(t), RequestFor(e, c), FactsFor(w, e, c);
    MessageGatesMean(t, w, e, c);
    MinimalGatesShape(t);
    ShippedIds(t);
    assert forall i :: Governs(q.actionType, i) <==> i == 0 || i == 1 || i == 2 || i == 4 || i == 6 || i == 7;
    RecordIsHeard(gs, q, facts);
    MessageIsHeard(gs, q, facts);
    assert forall i :: 0 <= i < 8 ==> GateIds(gs)[i] == (gs[i].denyRuleId, gs[i].allowRuleId);
  }

  predicate IsRefused(t: Thresholds, w: World, e: Envelope, c: FactContext) {
    if e.action.ScheduleDebit? then DebitRefused(w, e, c) else MessageRefused(t, w, e, c)
  }

  /** The ruling in one line: denied, or a debit above the ceiling for a human, or allowed. */
  function Ruling(t: Thresholds, w: World, e: Envelope, c: FactContext): PolicyEffect {
    if IsRefused(t, w, e, c) then Deny
    else if e.action.ScheduleDebit? && e.action.amount > t.afaRequiredAbove then AllowWithApproval
    else Allow
  }

  lemma EngineGivesTheRuling(t: Thresholds, w: World, e: Envelope, c: FactContext)
    ensures var r := Evaluate(RulesOf(MinimalGates(t)), RequestFor(e, c), FactsFor(w, e, c));
            r.Success? && r.value.decision.effect == Ruling(t, w, e, c)
  {
    hide DebitRefused, MessageRefused, Evaluate, RulesOf, FactsFor;
    if e.action.ScheduleDebit? {
      DebitVerdict(t, w, e, c);
    } else {
      MessageVerdict(t, w, e, c);
    }
  }

  /** Nothing already proposed is ever allowed again: the engine, evaluating the shipped
      rules on the built facts, denies it, not even leaving it to a human. */
  lemma UsedKeyIsDenied(t: Thresholds, w: World, e: Envelope, c: FactContext)
    requires KeyOf(w.digest, e) in c.usedIdempotencyKeys
    ensures var r := Evaluate(RulesOf(MinimalGates(t)), RequestFor(e, c), FactsFor(w, e, c));
            r.Success? && r.value.decision.effect == Deny
  {
    hide Evaluate, RulesOf, FactsFor;
    EngineGivesTheRuling(t, w, e, c);
  }
}
