/**
 What the agent reads about the payer and the debt: consent, holds, mandates and
 obligations (reclaim/contracts/obligations.py), the template registry
 (reclaim/policy/templates.py), and the outside world as arbitrary functions.
 */
module Parties {
  import opened Wrappers
  import opened Vocabulary
  import opened Actions
  import opened Cases

  type Zone = nat

  /** Half-open window of whole local hours, in its own zone. */
  datatype QuietHours = QuietHours(startHour: nat, endHour: nat, zone: Zone)

  const FALLBACK_ZONE: Zone := 0

  datatype Purpose = PaymentRecovery | Retention | AccountServicing | OtherPurpose(name: string)

  datatype ConsentRecord = ConsentRecord(
    channel: Channel, granted: bool, withdrawnAt: Option<Instant>, dpdpPurpose: Purpose)
  {
    predicate IsEffective() {
      granted && withdrawnAt.None?
    }
  }

  datatype ConsentProfile = ConsentProfile(
    records: seq<ConsentRecord>, language: Language, quietHours: Option<QuietHours>, onDncList: bool)

  /** The first record for the channel. */
  function RecordFor(records: seq<ConsentRecord>, channel: Channel): (r: Option<ConsentRecord>)
    ensures r.Some? ==> r.value in records && r.value.channel == channel
    ensures r.None? ==> forall x :: x in records ==> x.channel != channel
  {
    if records == [] then None
    else if records[0].channel == channel then Some(records[0])
    else RecordFor(records[1..], channel)
  }

  /** An absent profile, an absent record and the do-not-contact list all mean no. */
  predicate HasConsent(profile: Option<ConsentProfile>, channel: Channel) {
    && profile.Some? && !profile.value.onDncList
    && var r := RecordFor(profile.value.records, channel); r.Some? && r.value.IsEffective()
  }

  datatype Hold = Hold(kind: StopReason, openedAt: Instant, releasedAt: Option<Instant>)

  datatype MandateStatus = MandatePendingRegistration | MandateActive | MandateIsPaused | MandateIsCancelled
                         | MandateIsExpired | MandateIsInvalid | MandateUnknown

  datatype Mandate = Mandate(status: MandateStatus, revokedAt: Option<Instant>, cap: Paise) {
    predicate IsDebitable() {
      status == MandateActive && revokedAt.None?
    }
  }

  datatype Obligation = Obligation(
    obligationId: ObligationId,
    payerId: PayerId,
    grossAmount: Paise,
    dueAt: Instant,
    status: ObligationStatus,
    partialPayments: seq<Paise>,
    creditNotes: seq<Paise>)
  {
    function Settled(): Paise {
      Sum(partialPayments) + Sum(creditNotes)
    }

    /** No more is settled than was owed; paise are exact. */
    predicate Valid() {
      Settled() <= grossAmount
    }
  }

  function Sum(xs: seq<Paise>): Paise {
    if xs == [] then 0 else Sum(xs[..|xs| - 1]) + xs[|xs| - 1]
  }

  // ------------------------------------------------------------ templates

  function IntentOfTemplate(t: TemplateId): Option<MessageIntent> {
    match t
    case TplCredentialUpdate => Some(CredentialUpdateRequest)
    case TplAfaCompletion => Some(AfaCompletionRequest)
    case TplPaymentReminder => Some(PaymentReminder)
    case TplMandateReauth => Some(MandateReauthRequest)
    case TplPaymentFailedInform => Some(PaymentFailedInform)
    case TplUnregistered(_) => None
  }

  predicate IsDltRegistered(t: TemplateId) {
    !t.TplUnregistered?
  }

  /** Slot names in alphabetical order, as the router fills them. */
  function SlotNamesOf(t: TemplateId): seq<SlotName> {
    match t
    case TplCredentialUpdate => [AmountDue, MerchantName, UpdateLink]
    case TplAfaCompletion => [AfaLink, AmountDue, MerchantName]
    case TplPaymentReminder => [AmountDue, DueDate, MerchantName]
    case TplMandateReauth => [AmountDue, MerchantName, ReauthLink]
    case TplPaymentFailedInform => [AfaLink, AmountDue, MerchantName, UpdateLink]
    case TplUnregistered(_) => []
  }

  /** The registered template for an intent; every template is registered in one language. */
  function TemplateFor(intent: MessageIntent, language: Language): Option<TemplateId> {
    if language != EnIn then None
    else
      match intent
      case CredentialUpdateRequest => Some(TplCredentialUpdate)
      case AfaCompletionRequest => Some(TplAfaCompletion)
      case PaymentReminder => Some(TplPaymentReminder)
      case MandateReauthRequest => Some(TplMandateReauth)
      case PaymentFailedInform => Some(TplPaymentFailedInform)
      case _ => None
  }

  // ------------------------------------------------------------ the outside world

  /** Everything the agent reads but does not compute here, as arbitrary functions:
      local time, stand-in consent and holds, rendered slot text, the phrase list and
      the digest behind idempotency keys. */
  datatype World = World(
    localHour: (Instant, Zone) -> int,
    localDate: (Instant, Zone) -> int,
    windowEnd: (Instant, QuietHours) -> Instant,
    consentOf: PayerId -> Option<ConsentProfile>,
    holdsOf: RiskCase -> seq<Hold>,
    slotText: (SlotName, RiskCase, Obligation) -> string,
    isBanned: string -> bool,
    digest: (CaseId, Action) -> Digest)
}
