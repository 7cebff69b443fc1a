/**
 The risk case and its validators (reclaim/contracts/case.py, reclaim/contracts/strata.py),
 and the rebuild that every state change goes through (reclaim/spine/case_machine.py).
 */
module Cases {
  import opened Wrappers
  import opened Vocabulary

  datatype AmountBand = Le2K | Le15K | Le1L | Le10L | Gt10L

  /** A stratum is keyed either by the observed decline class or by the risk class. */
  datatype FailureClass = ByDecline(declineClass: DeclineClass) | ByRisk(riskClass: RiskClass)

  datatype StratumKey = StratumKey(amountBand: AmountBand, failureClass: FailureClass, segment: Segment)

  /** Inclusive upper bounds in rupees, read on the absolute amount. */
  function BandOf(amount: Paise): AmountBand {
    var a := if amount < 0 then -amount else amount;
    if a <= 2_000_00 then Le2K
    else if a <= 15_000_00 then Le15K
    else if a <= 1_00_000_00 then Le1L
    else if a <= 10_00_000_00 then Le10L
    else Gt10L
  }

  datatype RiskCase = RiskCase(
    caseId: CaseId,
    obligationId: ObligationId,
    payerId: PayerId,
    riskClass: RiskClass,
    segment: Segment,
    amountAtRisk: Paise,
    detectedAt: Instant,
    declineClass: Option<DeclineClass>,
    stratum: StratumKey,
    arm: Arm,
    state: CaseState,
    recoveryWindowEndsAt: Instant,
    activePlanId: Option<PlanId>,
    activeDiagnosisId: Option<DiagnosisId>,
    stopReason: Option<StopReason>,
    stoppedAt: Option<Instant>,
    incidentId: Option<nat>,
    cohortId: Option<nat>)
  {
    predicate IsLive() {
      !state.IsTerminal()
    }

    predicate StopReasonIffStopped() {
      state == Stopped <==> stopReason.Some?
    }

    predicate StoppedAtAccompaniesTheStop() {
      && (stoppedAt.Some? <==> stopReason.Some?)
      && (stoppedAt.Some? ==> stoppedAt.value >= detectedAt)
    }

    predicate ControlArmHasNoPlan() {
      arm == A0 ==> activePlanId.None?
    }

    /** The stratum was derived from this very case. */
    predicate StratumAgrees() {
      && stratum.segment == segment
      && stratum.amountBand == BandOf(amountAtRisk)
      && (stratum.failureClass.ByRisk? ==> stratum.failureClass.riskClass == riskClass)
      && (stratum.failureClass.ByDecline? ==> riskClass == FailedRecurringDebit)
    }

    /** Only a failed recurring debit names a decline class, and the stratum may
        only stratify on the class the case names. */
    predicate DeclineClassBelongs() {
      && (riskClass != FailedRecurringDebit ==> declineClass.None?)
      && (stratum.failureClass.ByDecline? ==> declineClass == Some(stratum.failureClass.declineClass))
    }

    predicate Valid() {
      && StopReasonIffStopped()
      && StoppedAtAccompaniesTheStop()
      && recoveryWindowEndsAt > detectedAt
      && amountAtRisk > 0
      && ControlArmHasNoPlan()
      && StratumAgrees()
      && DeclineClassBelongs()
    }
  }

  /** The bands in rupees, each from just above the previous bound. */
  predicate BandFits(amount: Paise, band: AmountBand) {
    && (band == Le2K <==> amount <= 2_000 * 100)
    && (band == Le15K <==> 2_000 * 100 < amount <= 15_000 * 100)
    && (band == Le1L <==> 15_000 * 100 < amount <= 100_000 * 100)
    && (band == Le10L <==> 100_000 * 100 < amount <= 1_000_000 * 100)
    && (band == Gt10L <==> amount > 1_000_000 * 100)
  }

  /** A failed recurring debit is filed under its own risk class, or under the decline class
      it names; any other case names none and is filed under its risk class. */
  predicate FiledRight(c: RiskCase) {
    if c.riskClass == FailedRecurringDebit then
      || c.stratum.failureClass == ByRisk(FailedRecurringDebit)
      || (c.declineClass.Some? && c.stratum.failureClass == ByDecline(c.declineClass.value))
    else
      c.declineClass.None? && c.stratum.failureClass == ByRisk(c.riskClass)
  }

  /** The seven validators together, field by field. */
  lemma ValidExactly(c: RiskCase)
    ensures c.Valid() <==>
              && (c.state == Stopped <==> c.stopReason.Some?) && (c.state == Stopped <==> c.stoppedAt.Some?)
              && (c.stoppedAt.Some? ==> c.detectedAt <= c.stoppedAt.value)
              && c.detectedAt < c.recoveryWindowEndsAt && 0 < c.amountAtRisk
              && (c.arm == A0 ==> c.activePlanId.None?)
              && c.stratum.segment == c.segment && BandFits(c.amountAtRisk, c.stratum.amountBand) && FiledRight(c)
  {
  }

  /** The fields callers of `transition` pass; `None` means the field is not passed. */
  datatype FieldUpdates = FieldUpdates(
    activePlanId: Option<PlanId>,
    activeDiagnosisId: Option<DiagnosisId>,
    stopReason: Option<StopReason>,
    stoppedAt: Option<Instant>)

  const NO_UPDATES := FieldUpdates(None, None, None, None)

  function StopWith(reason: StopReason, at: Instant): FieldUpdates {
    FieldUpdates(None, None, Some(reason), Some(at))
  }

  function DiagnosedAs(id: DiagnosisId): FieldUpdates {
    FieldUpdates(None, Some(id), None, None)
  }

  /** The case with a new state and the passed fields overwritten, before validation. */
  function Overwrite(c: RiskCase, to: CaseState, u: FieldUpdates): RiskCase {
    c.(
      state := to,
      activePlanId := if u.activePlanId.Some? then u.activePlanId else c.activePlanId,
      activeDiagnosisId := if u.activeDiagnosisId.Some? then u.activeDiagnosisId else c.activeDiagnosisId,
      stopReason := if u.stopReason.Some? then u.stopReason else c.stopReason,
      stoppedAt := if u.stoppedAt.Some? then u.stoppedAt else c.stoppedAt)
  }

  /** What the caller must pass for a move from a live case to be accepted. */
  predicate UpdatesFit(c: RiskCase, to: CaseState, u: FieldUpdates) {
    && (to == Stopped <==> u.stopReason.Some?)
    && (u.stopReason.Some? <==> u.stoppedAt.Some?)
    && (u.stoppedAt.Some? ==> u.stoppedAt.value >= c.detectedAt)
    && (c.arm == A0 ==> u.activePlanId.None?)
  }

  /** Re-validation accepts a move of a valid live case exactly when a reason and a
      time accompany a stop and nothing else, and no plan lands on the control arm. */
  lemma RebuildAcceptsExactly(c: RiskCase, to: CaseState, u: FieldUpdates)
    requires c.Valid() && c.IsLive()
    ensures Overwrite(c, to, u).Valid() <==> UpdatesFit(c, to, u)
  {
  }

  /** A move keeps everything the experiment froze at detection. */
  predicate SameCase(a: RiskCase, b: RiskCase) {
    && a.caseId == b.caseId && a.obligationId == b.obligationId && a.payerId == b.payerId
    && a.riskClass == b.riskClass && a.segment == b.segment && a.amountAtRisk == b.amountAtRisk
    && a.detectedAt == b.detectedAt && a.declineClass == b.declineClass && a.stratum == b.stratum
    && a.arm == b.arm && a.recoveryWindowEndsAt == b.recoveryWindowEndsAt
    && a.incidentId == b.incidentId && a.cohortId == b.cohortId
  }
}
