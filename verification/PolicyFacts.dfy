/**
 The fact builder (reclaim/policy/facts.py): the bundle the engine reads is derived
 from the ledger, the obligation, consent, holds, the outbox and the clock.
 */
module PolicyFacts {
  import opened Wrappers
  import opened Vocabulary
  import opened Actions
  import opened Cases
  import opened Parties
  import opened PolicyFormat
  import opened PolicyRules

  function PurposeOf(intent: MessageIntent): Purpose {
    match intent
    case RetentionOutreach => Retention
    case InvoiceCorrection => AccountServicing
    case ServiceApology => AccountServicing
    case _ => PaymentRecovery
  }

  datatype FactContext = FactContext(
    riskCase: RiskCase,
    obligation: Obligation,
    now: Instant,
    thresholds: Thresholds,
    consent: Option<ConsentProfile>,
    mandate: Option<Mandate>,
    holds: seq<Hold>,
    debitAttemptsThisWindow: nat,
    contactsOnChannelLast7d: nat,
    contactsTotalThisCase: nat,
    usedIdempotencyKeys: set<IdempotencyKey>,
    declaredHolidays: set<int>)

  // ------------------------------------------------------------ readings

  predicate IsOpenHold(h: Hold, now: Instant) {
    h.releasedAt.None? && h.openedAt <= now
  }

  predicate HasOpenHold(c: FactContext) {
    exists h :: h in c.holds && IsOpenHold(h, c.now)
  }

  predicate HasOpenHoldOf(c: FactContext, kind: StopReason) {
    exists h :: h in c.holds && IsOpenHold(h, c.now) && h.kind == kind
  }

  /** A withdrawn or never granted record on any channel, or an opt-out hold. */
  predicate OptedOut(c: FactContext) {
    || HasOpenHoldOf(c, HardStopOptOut)
    || (c.consent.Some? && exists r :: r in c.consent.value.records && !r.IsEffective())
  }

  predicate Outstanding(o: Obligation) {
    o.status == Open || o.status == PartiallyPaid
  }

  /** The payer's stated window wins, else the configured one in the fallback zone. */
  function GoverningWindow(consent: Option<ConsentProfile>, t: Thresholds): QuietHours {
    if consent.Some? && consent.value.quietHours.Some? then consent.value.quietHours.value
    else QuietHours(t.quietStartHour, t.quietEndHour, FALLBACK_ZONE)
  }

  predicate WithinWindow(w: World, at: Instant, window: QuietHours) {
    window.startHour <= w.localHour(at, window.zone) < window.endHour
  }

  predicate LastDeclineHard(c: RiskCase) {
    c.declineClass.Some? && RetryabilityOf(c.declineClass.value) != RetrySoft
  }

  predicate MandateAllows(rail: Rail, amount: Paise, mandate: Option<Mandate>) {
    IsMandateBacked(rail) ==> mandate.Some? && mandate.value.IsDebitable() && amount <= mandate.value.cap
  }

  // ------------------------------------------------------------ the bundle

  /** One fact for each hard stop that has a fact of its own. */
  function KindFacts(c: FactContext): Facts {
    map[
      HasOpenDispute := BoolValue(HasOpenHoldOf(c, HardStopDispute)),
      HasHardshipFlag := BoolValue(HasOpenHoldOf(c, HardStopHardship)),
      HasLegalHold := BoolValue(HasOpenHoldOf(c, HardStopLegalHold)),
      HasOpenChargeback := BoolValue(HasOpenHoldOf(c, HardStopChargeback)),
      IsOptedOut := BoolValue(HasOpenHoldOf(c, HardStopOptOut))
    ]
  }

  function HoldFacts(c: FactContext): Facts {
    KindFacts(c)
      [HasActiveHold := BoolValue(HasOpenHold(c))]
      [InSuppressedCohort := BoolValue(c.riskCase.cohortId.Some?)]
      [HasOpenIncidentAttributableToUs := BoolValue(c.riskCase.incidentId.Some?)]
  }

  function IntegrityFacts(w: World, e: Envelope, c: FactContext): Facts {
    map[
      IdempotencyKeyAlreadyUsed := BoolValue(KeyOf(w.digest, e) in c.usedIdempotencyKeys),
      ObligationAlreadySettled := BoolValue(!Outstanding(c.obligation))
    ]
  }

  function DebitFacts(a: Action, c: FactContext): Facts
    requires a.ScheduleDebit?
  {
    map[
      DebitAmount := MoneyValue(a.amount),
      RailFact := EnumMember(RailValue(a.rail)),
      MandateIsDebitable := BoolValue(MandateAllows(a.rail, a.amount, c.mandate)),
      LastDeclineWasHard := BoolValue(LastDeclineHard(c.riskCase)),
      NetworkRetryCountThisWindow := IntValue(c.debitAttemptsThisWindow)
    ]
  }

  function ConsentFacts(a: Action, c: FactContext): Facts
    requires a.SendMessage?
  {
    var record := if c.consent.Some? then RecordFor(c.consent.value.records, a.channel) else None;
    map[
      IsOnDncList := BoolValue(c.consent.Some? && c.consent.value.onDncList),
      ConsentRecordExists := BoolValue(record.Some?),
      HasChannelConsent := BoolValue(HasConsent(c.consent, a.channel)),
      ConsentLanguageMatches := BoolValue(c.consent.Some? && c.consent.value.language == a.language),
      DpdpPurposeCoversAction := BoolValue(record.Some? && record.value.dpdpPurpose == PurposeOf(a.intent))
    ]
  }

  function TimingFacts(w: World, c: FactContext): Facts {
    var window := GoverningWindow(c.consent, c.thresholds);
    map[
      IsWithinQuietHours := BoolValue(WithinWindow(w, c.now, window)),
      QuietHoursEndAt := TimeValue(w.windowEnd(c.now, window)),
      IsDeclaredHoliday := BoolValue(w.localDate(c.now, window.zone) in c.declaredHolidays),
      ContactsOnChannelLast7d := IntValue(c.contactsOnChannelLast7d),
      ContactsTotalThisCase := IntValue(c.contactsTotalThisCase)
    ]
  }

  function MessageFacts(w: World, a: Action): Facts
    requires a.SendMessage?
  {
    map[
      TemplateIsDltRegistered := BoolValue(IsDltRegistered(a.templateId)),
      TemplateLanguage := EnumMember(LanguageValue(a.language)),
      HasFreeTextSlot := BoolValue(exists s :: s in a.slots && s.freeText),
      ContainsBannedPhrase := BoolValue(exists s :: s in a.slots && w.isBanned(s.value))
    ]
  }

  function ContactFacts(w: World, a: Action, c: FactContext): Facts
    requires a.SendMessage?
  {
    ConsentFacts(a, c) + TimingFacts(w, c) + MessageFacts(w, a)
  }

  function SharedFacts(w: World, e: Envelope, c: FactContext): Facts {
    (HoldFacts(c)[IsOptedOut := BoolValue(OptedOut(c))] + IntegrityFacts(w, e, c))
      [SegmentFact := EnumMember(SegmentValue(c.riskCase.segment))]
  }

  function FactsFor(w: World, e: Envelope, c: FactContext): Facts {
    SharedFacts(w, e, c)
    + (if e.action.ScheduleDebit? then DebitFacts(e.action, c) else ContactFacts(w, e.action, c))
  }

  /** Fills the bundle step by step, as the builder does. */
  method BuildFacts(w: World, e: Envelope, c: FactContext) returns (facts: Facts)
    ensures facts == FactsFor(w, e, c)
    ensures WellTyped(facts)
  {
    facts := HoldFacts(c);
    var fromHolds := facts[IsOptedOut].b;
    var optedOut := fromHolds || (c.consent.Some? && exists r :: r in c.consent.value.records && !r.IsEffective());
    facts := facts[IsOptedOut := BoolValue(optedOut)];
    facts := facts + IntegrityFacts(w, e, c);
    facts := facts[SegmentFact := EnumMember(SegmentValue(c.riskCase.segment))];
    if e.action.Type() == ScheduleDebitType {
      facts := facts + DebitFacts(e.action, c);
    }
    if ConsentAndChannel in CategoriesOf(e.action.Type()) {
      facts := facts + ContactFacts(w, e.action, c);
    }
    BundleIsWellTyped(w, e, c);
  }

  /** Checks every supplied fact against its declared type; `false` is the raise. */
  method ValidateFacts(facts: Facts) returns (ok: bool)
    ensures ok <==> WellTyped(facts)
  {
    var left := facts.Keys;
    while left != {}
      invariant left <= facts.Keys
      invariant forall k :: k in facts && k !in left ==> ValueSuits(k, facts[k])
      decreases |left|
    {
      var k :| k in left;
      if !ValueSuits(k, facts[k]) {
        return false;
      }
      left := left - {k};
    }
    return true;
  }

  lemma BundleIsWellTyped(w: World, e: Envelope, c: FactContext)
    ensures WellTyped(FactsFor(w, e, c))
  {
    SharedFactsAreWellTyped(w, e, c);
    if e.action.ScheduleDebit? {
      DebitFactsAreWellTyped(e.action, c);
      UnionIsWellTyped(SharedFacts(w, e, c), DebitFacts(e.action, c));
    } else {
      ContactFactsAreWellTyped(w, e.action, c);
      UnionIsWellTyped(SharedFacts(w, e, c), ContactFacts(w, e.action, c));
    }
  }

  lemma UnionIsWellTyped(a: Facts, b: Facts)
    requires WellTyped(a) && WellTyped(b)
    ensures WellTyped(a + b)
  {
  }

  lemma SharedFactsAreWellTyped(w: World, e: Envelope, c: FactContext)
    ensures WellTyped(SharedFacts(w, e, c))
  {
    HoldFactsAreWellTyped(c);
    UnionIsWellTyped(HoldFacts(c)[IsOptedOut := BoolValue(OptedOut(c))], IntegrityFacts(w, e, c));
  }

  lemma HoldFactsAreWellTyped(c: FactContext)
    ensures WellTyped(HoldFacts(c))
  {
    KindFactsAreWellTyped(c);
  }

  lemma KindFactsAreWellTyped(c: FactContext)
    ensures WellTyped(KindFacts(c))
  {
  }

  lemma DebitFactsAreWellTyped(a: Action, c: FactContext)
    requires a.ScheduleDebit?
    ensures WellTyped(DebitFacts(a, c))
  {
  }

  lemma ContactFactsAreWellTyped(w: World, a: Action, c: FactContext)
    requires a.SendMessage?
    ensures WellTyped(ContactFacts(w, a, c))
  {
    UnionIsWellTyped(ConsentFacts(a, c), TimingFacts(w, c));
    UnionIsWellTyped(ConsentFacts(a, c) + TimingFacts(w, c), MessageFacts(w, a));
  }
}
