/**
 Closed vocabularies of the recovery agent (reclaim/contracts/enums.py and
 reclaim/contracts/decline_taxonomy.py): case states and their transition table,
 experiment arms, root causes, and the decline taxonomy.

 Identifiers are numbers: the code only compares them for equality and sorts by
 them. Instants are seconds on one UTC axis, amounts are integer paise, and
 probabilities are integer millionths (six decimal places).
 */
module Vocabulary {
  type CaseId = nat
  type ObligationId = nat
  type PayerId = nat
  type PlanId = nat
  type DiagnosisId = nat
  type ActionId = nat
  type Instant = int
  type Paise = int
  type Micros = int

  datatype Channel = Email | WhatsApp | Sms | Voice | InApp

  datatype Language = EnIn | HiIn | Hinglish | TaIn | MrIn

  datatype Segment = B2cStandard | B2cPremium | B2bSmb | B2bMidMarket | B2bEnterprise | B2bStrategic {
    predicate IsB2b() {
      B2bSmb? || B2bMidMarket? || B2bEnterprise? || B2bStrategic?
    }
  }

  datatype ObligationStatus = Open | PartiallyPaid | Paid | Credited | WrittenOffStatus | VoidStatus

  datatype RiskClass =
    | FailedRecurringDebit
    | PredictedToFailDebit
    | OverdueReceivable
    | CheckoutAbandonment
    | SystemicAuthDegradation
    | SilentLeakage

  datatype RootCause =
    | H1TimingLiquidity
    | H2CredentialLifecycle
    | H3MandateDeadOrPaused
    | H4AfaStepUpIncomplete
    | H5DeliberateChurnIntent
    | H6OurSideSystemic
    | H7CommercialDispute
    | H8B2bProcessDefect
    | H9B2bLiquidityOrWillfulDelay
    | UnknownCause
  {
    predicate ForbidsPaymentNudge() {
      H5DeliberateChurnIntent? || H6OurSideSystemic? || H7CommercialDispute?
    }
  }

  datatype MessageIntent =
    | PreDebitNotification
    | PaymentFailedInform
    | CredentialUpdateRequest
    | MandateReauthRequest
    | AfaCompletionRequest
    | InvoiceCorrection
    | PaymentReminder
    | PromiseFollowUp
    | RetentionOutreach
    | ServiceApology

  datatype StopReason =
    | PolicyBlocked
    | HumanRejected
    | ApprovalTimeout
    | HardStopOptOut
    | HardStopDispute
    | HardStopHardship
    | HardStopLegalHold
    | HardStopBereavement
    | HardStopChargeback
    | ContactCap
    | HardDeclineNoFurtherDebit
    | AlreadyPaid
    | SystemicIncidentOurs
    | ConfidenceFloorTwice
    | WrongRecipient
    | ObligationVoided

  datatype ActorType = Agent | Human | System

  // ------------------------------------------------------------ case lifecycle

  datatype CaseState =
    | Detected
    | Suppressed
    | Diagnosing
    | Planned
    | AwaitingApproval
    | Scheduled
    | Executing
    | AwaitingResponse
    | Promised
    | Reconciling
    | RetryBackoff
    | PartiallyRecovered
    | Escalated
    | Recovered
    | Stopped
    | WrittenOff
  {
    predicate IsTerminal() {
      Recovered? || Stopped? || WrittenOff?
    }

    /** The states a case can be in once its diagnosis has started. */
    predicate PastDetection() {
      !Detected? && !Suppressed?
    }
  }

  /** The frozen transition table. */
  function AllowedTransitions(s: CaseState): set<CaseState> {
    match s
    case Detected => {Planned, Suppressed, Diagnosing, Stopped}
    case Suppressed => {Detected, Stopped}
    case Diagnosing => {Planned, Escalated, Stopped}
    case Planned => {Scheduled, AwaitingApproval, Stopped}
    case AwaitingApproval => {Scheduled, Stopped}
    case Scheduled => {Executing, Stopped, Planned}
    case Executing => {Recovered, PartiallyRecovered, AwaitingResponse, RetryBackoff, Stopped}
    case RetryBackoff => {Executing, Escalated, Stopped}
    case PartiallyRecovered => {Planned, Recovered, Stopped}
    case AwaitingResponse => {Promised, Stopped, Reconciling, Planned, Escalated}
    case Promised => {Recovered, Planned, Stopped}
    case Reconciling => {Recovered, Planned, Stopped}
    case Escalated => {Recovered, Stopped, WrittenOff, Planned}
    case Recovered => {}
    case Stopped => {}
    case WrittenOff => {}
  }

  predicate CanMove(from: CaseState, to: CaseState) {
    to in AllowedTransitions(from)
  }

  /** The same table read by destination: for each state, exactly where it can be entered from. */
  lemma WaysIn(s: CaseState)
    ensures CanMove(s, Detected) <==> s == Suppressed
    ensures CanMove(s, Suppressed) <==> s == Detected
    ensures CanMove(s, Diagnosing) <==> s == Detected
    ensures CanMove(s, Planned) <==>
              s in {Detected, Diagnosing, Scheduled, PartiallyRecovered, AwaitingResponse, Promised, Reconciling, Escalated}
    ensures CanMove(s, AwaitingApproval) <==> s == Planned
    ensures CanMove(s, Scheduled) <==> s in {Planned, AwaitingApproval}
    ensures CanMove(s, Executing) <==> s in {Scheduled, RetryBackoff}
    ensures CanMove(s, AwaitingResponse) <==> s == Executing
    ensures CanMove(s, RetryBackoff) <==> s == Executing
    ensures CanMove(s, PartiallyRecovered) <==> s == Executing
    ensures CanMove(s, Promised) <==> s == AwaitingResponse
    ensures CanMove(s, Reconciling) <==> s == AwaitingResponse
    ensures CanMove(s, Escalated) <==> s in {Diagnosing, RetryBackoff, AwaitingResponse}
    ensures CanMove(s, Recovered) <==> s in {Executing, PartiallyRecovered, Promised, Reconciling, Escalated}
    ensures CanMove(s, WrittenOff) <==> s == Escalated
    ensures CanMove(s, Stopped) <==> s !in {Recovered, Stopped, WrittenOff}
  {
  }

  /** A sequence of edges that starts at `from`, ends at `to` and uses only allowed edges. */
  predicate IsWalk(from: CaseState, edges: seq<(CaseState, CaseState)>, to: CaseState)
    decreases |edges|
  {
    if edges == [] then from == to
    else
      var (a, b) := edges[|edges| - 1];
      b == to && CanMove(a, b) && IsWalk(from, edges[..|edges| - 1], a)
  }

  /** No path of the table leads from a diagnosed case back to `detected` or `suppressed`. */
  lemma {:induction false} DiagnosisIsNeverUndone(from: CaseState, edges: seq<(CaseState, CaseState)>, to: CaseState)
    requires from.PastDetection()
    requires IsWalk(from, edges, to)
    ensures to.PastDetection()
    decreases |edges|
  {
    if edges != [] {
      DiagnosisIsNeverUndone(from, edges[..|edges| - 1], edges[|edges| - 1].0);
    }
  }

  /** A walk can only be empty when it starts in a terminal state, and every other
      state can be stopped: the two facts the simulator's self-heal relies on. */
  lemma TerminalExactlyWhenStuck(s: CaseState)
    ensures s.IsTerminal() <==> AllowedTransitions(s) == {}
    ensures !s.IsTerminal() <==> CanMove(s, Stopped)
  {
  }

  // ------------------------------------------------------------ experiment arms

  datatype Arm = A0 | A1 | A2 | A3 | A4 | A5

  /** Declaration order, which is also the order assignment walks. */
  const ALL_ARMS := [A0, A1, A2, A3, A4, A5]

  lemma EveryArmIsListed(arm: Arm)
    ensures arm in ALL_ARMS
  {
    assert ALL_ARMS[0] == A0 && ALL_ARMS[1] == A1 && ALL_ARMS[2] == A2
        && ALL_ARMS[3] == A3 && ALL_ARMS[4] == A4 && ALL_ARMS[5] == A5;
  }

  datatype ArmSpec = ArmSpec(
    takesAnyAction: bool,
    deterministicRoutingEnabled: bool,
    policyEngineEnabled: bool)

  function ArmSpecOf(arm: Arm): ArmSpec {
    match arm
    case A0 => ArmSpec(false, false, true)
    case A1 => ArmSpec(true, false, true)
    case A2 => ArmSpec(true, false, true)
    case A3 => ArmSpec(true, true, true)
    case A4 => ArmSpec(true, true, true)
    case A5 => ArmSpec(true, true, false)
  }

  /** Only the control does nothing, only one arm goes without the policy, and three route. */
  lemma ArmsExactly(arm: Arm)
    ensures ArmSpecOf(arm) == ArmSpec(arm != A0, arm == A3 || arm == A4 || arm == A5, arm != A5)
    ensures IsRoutingArm(arm) <==> arm == A3 || arm == A4
  {
  }

  predicate IsRoutingArm(arm: Arm) {
    ArmSpecOf(arm).deterministicRoutingEnabled && ArmSpecOf(arm).policyEngineEnabled
  }

  // ------------------------------------------------------------ decline taxonomy

  datatype Retryability =
    | RetrySoft
    | RetryAfterIncident
    | RequiresCustomerAuthentication
    | RequiresNewCredential
    | RequiresNewMandate
    | NoRetryTerminal
    | NoRetryComplianceHold
    | UnknownFailClosed

  datatype DeclineClass =
    | InsufficientFunds
    | IssuerTransientDecline
    | IssuerUnavailable
    | AuthenticationRequired
    | PayerAuthorizationMissingAmbiguous
    | MandateInvalid
    | MandateCancelled
    | MandatePaused
    | MandateExpired
    | MandateCapExceeded
    | PreDebitNotificationUndelivered
    | CardExpired
    | CardReplacedOrTokenInvalid
    | CardLostOrStolen
    | AccountClosedOrInvalid
    | RiskBlockedByIssuer
    | RiskBlockedByPsp
    | RiskBlockedByMerchantRule
    | ProcessingError
    | RoutingOrConfigError
    | RailNotSupported
    | DuplicateAttemptBlocked
    | NetworkRetryLimitExceeded
    | UnknownUnmapped

  function RetryabilityOf(d: DeclineClass): Retryability {
    match d
    case InsufficientFunds => RetrySoft
    case IssuerTransientDecline => RetrySoft
    case IssuerUnavailable => RetryAfterIncident
    case AuthenticationRequired => RequiresCustomerAuthentication
    case PayerAuthorizationMissingAmbiguous => RequiresCustomerAuthentication
    case MandateInvalid => RequiresNewMandate
    case MandateCancelled => RequiresNewMandate
    case MandatePaused => RequiresNewMandate
    case MandateExpired => RequiresNewMandate
    case MandateCapExceeded => RequiresNewMandate
    case PreDebitNotificationUndelivered => RetryAfterIncident
    case CardExpired => RequiresNewCredential
    case CardReplacedOrTokenInvalid => RequiresNewCredential
    case CardLostOrStolen => NoRetryTerminal
    case AccountClosedOrInvalid => NoRetryTerminal
    case RiskBlockedByIssuer => NoRetryTerminal
    case RiskBlockedByPsp => RetryAfterIncident
    case RiskBlockedByMerchantRule => RetryAfterIncident
    case ProcessingError => RetryAfterIncident
    case RoutingOrConfigError => RetryAfterIncident
    case RailNotSupported => NoRetryTerminal
    case DuplicateAttemptBlocked => NoRetryTerminal
    case NetworkRetryLimitExceeded => NoRetryComplianceHold
    case UnknownUnmapped => UnknownFailClosed
  }

  function CandidateCauses(d: DeclineClass): seq<RootCause> {
    match d
    case InsufficientFunds => [H1TimingLiquidity]
    case IssuerTransientDecline => [H1TimingLiquidity]
    case IssuerUnavailable => [H6OurSideSystemic]
    case AuthenticationRequired => [H4AfaStepUpIncomplete]
    case PayerAuthorizationMissingAmbiguous =>
      [H4AfaStepUpIncomplete, H3MandateDeadOrPaused, H5DeliberateChurnIntent]
    case MandateInvalid => [H3MandateDeadOrPaused]
    case MandateCancelled => [H3MandateDeadOrPaused]
    case MandatePaused => [H3MandateDeadOrPaused, H5DeliberateChurnIntent]
    case MandateExpired => [H3MandateDeadOrPaused]
    case MandateCapExceeded => [H6OurSideSystemic, H3MandateDeadOrPaused]
    case PreDebitNotificationUndelivered => [H6OurSideSystemic, H4AfaStepUpIncomplete]
    case CardExpired => [H2CredentialLifecycle]
    case CardReplacedOrTokenInvalid => [H2CredentialLifecycle]
    case CardLostOrStolen => [H2CredentialLifecycle]
    case AccountClosedOrInvalid => [H2CredentialLifecycle]
    case RiskBlockedByIssuer => [H6OurSideSystemic, H7CommercialDispute]
    case RiskBlockedByPsp => [H6OurSideSystemic]
    case RiskBlockedByMerchantRule => [H6OurSideSystemic]
    case ProcessingError => [H6OurSideSystemic]
    case RoutingOrConfigError => [H6OurSideSystemic]
    case RailNotSupported => [H6OurSideSystemic]
    case DuplicateAttemptBlocked => [H6OurSideSystemic]
    case NetworkRetryLimitExceeded => [H1TimingLiquidity]
    case UnknownUnmapped => [UnknownCause]
  }
}
