/**
 The action catalog as the policy engine and the outbox see it
 (reclaim/contracts/actions.py, reclaim/contracts/rails.py).
 Thirteen verbs are declared; parameters are modelled for the two the router proposes.
 */
module Actions {
  import opened Wrappers
  import opened Vocabulary

  datatype Rail = CardEmandate | UpiAutopay | Enach | CardOneTime | UpiCollect | BankTransfer

  predicate IsMandateBacked(rail: Rail) {
    rail == CardEmandate || rail == UpiAutopay || rail == Enach
  }

  datatype ActionType =
    | ScheduleDebitType
    | SendPreDebitNotificationType
    | SendMessageType
    | CreateMandateReauthLinkType
    | CreateCredentialUpdateLinkType
    | OfferPaymentPlanType
    | ApplyGracePeriodType
    | InitiateVoiceCallType
    | SuppressContactType
    | OpenSystemicIncidentType
    | ProposeRouteChangeType
    | EscalateToHumanType
    | RecommendWriteOffType

  datatype PolicyCategory =
    | ConsentAndChannel
    | Timing
    | Frequency
    | RailAndNetwork
    | Content
    | FinancialAuthority
    | Holds
    | Integrity

  const CONTACT_CATEGORIES := {ConsentAndChannel, Timing, Frequency, Content, Holds, Integrity}

  /** The rule categories that must be evaluated before each verb. */
  function CategoriesOf(t: ActionType): set<PolicyCategory> {
    match t
    case ScheduleDebitType => {RailAndNetwork, FinancialAuthority, Holds, Integrity}
    case SendPreDebitNotificationType => CONTACT_CATEGORIES + {RailAndNetwork}
    case SendMessageType => CONTACT_CATEGORIES
    case CreateMandateReauthLinkType => {Holds, Integrity, RailAndNetwork}
    case CreateCredentialUpdateLinkType => {Holds, Integrity}
    case OfferPaymentPlanType => {FinancialAuthority, Holds, Integrity}
    case ApplyGracePeriodType => {FinancialAuthority, Holds, Integrity}
    case InitiateVoiceCallType => CONTACT_CATEGORIES
    case SuppressContactType => {Integrity}
    case OpenSystemicIncidentType => {Integrity}
    case ProposeRouteChangeType => {Integrity, FinancialAuthority}
    case EscalateToHumanType => {Integrity}
    case RecommendWriteOffType => {FinancialAuthority, Integrity}
  }

  /** The same table read by category: which verbs must answer to it. */
  lemma VerbsUnder(t: ActionType)
    ensures ConsentAndChannel in CategoriesOf(t) <==> t in {SendPreDebitNotificationType, SendMessageType, InitiateVoiceCallType}
    ensures Timing in CategoriesOf(t) <==> t in {SendPreDebitNotificationType, SendMessageType, InitiateVoiceCallType}
    ensures Frequency in CategoriesOf(t) <==> t in {SendPreDebitNotificationType, SendMessageType, InitiateVoiceCallType}
    ensures Content in CategoriesOf(t) <==> t in {SendPreDebitNotificationType, SendMessageType, InitiateVoiceCallType}
    ensures RailAndNetwork in CategoriesOf(t) <==>
              t in {ScheduleDebitType, SendPreDebitNotificationType, CreateMandateReauthLinkType}
    ensures FinancialAuthority in CategoriesOf(t) <==>
              t in {ScheduleDebitType, OfferPaymentPlanType, ApplyGracePeriodType, ProposeRouteChangeType, RecommendWriteOffType}
    ensures Holds in CategoriesOf(t) <==>
              t in {ScheduleDebitType, SendPreDebitNotificationType, SendMessageType, CreateMandateReauthLinkType,
                    CreateCredentialUpdateLinkType, OfferPaymentPlanType, ApplyGracePeriodType, InitiateVoiceCallType}
    ensures Integrity in CategoriesOf(t)
  {
  }

  datatype SlotName = AmountDue | MerchantName | DueDate | UpdateLink | AfaLink | ReauthLink

  datatype Slot = Slot(name: SlotName, value: string, freeText: bool)

  datatype TemplateId =
    | TplCredentialUpdate
    | TplAfaCompletion
    | TplPaymentReminder
    | TplMandateReauth
    | TplPaymentFailedInform
    | TplUnregistered(n: nat)

  datatype Action =
    | ScheduleDebit(
        obligationId: ObligationId,
        rail: Rail,
        amount: Paise,
        executeAt: Instant,
        attemptSequence: nat)
    | SendMessage(
        channel: Channel,
        templateId: TemplateId,
        language: Language,
        intent: MessageIntent,
        slots: seq<Slot>)
  {
    function Type(): ActionType {
      if ScheduleDebit? then ScheduleDebitType else SendMessageType
    }

    /** The channel of a contact, read through the catalog's channel field. */
    function ChannelOf(): Option<Channel> {
      if SendMessage? then Some(channel) else None
    }
  }

  type Digest = nat

  /** `<action_type>:<digest of the canonical scope>`. */
  datatype IdempotencyKey = IdempotencyKey(actionType: ActionType, scopeDigest: Digest)

  datatype Envelope = Envelope(actionId: ActionId, caseId: CaseId, action: Action)

  /** The key is derived from the case and every parameter; the digest is an
      arbitrary function, so nothing below relies on it being collision free. */
  function KeyOf(digest: (CaseId, Action) -> Digest, e: Envelope): IdempotencyKey {
    IdempotencyKey(e.action.Type(), digest(e.caseId, e.action))
  }
}
