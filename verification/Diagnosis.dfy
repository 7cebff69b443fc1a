/**
 The deterministic diagnostician (reclaim/diagnosis/deterministic.py): a table lookup
 that abstains on our-side causes and reports contested dispatches below the floor.
 */
module Diagnosis {
  import opened Wrappers
  import opened Vocabulary
  import opened Cases

  const KNOWN_CAUSE_CONFIDENCE: Micros := 600_000
  const CONTESTED_CAUSE_CONFIDENCE: Micros := 520_000
  const ABSTENTION_CONFIDENCE: Micros := 300_000
  const MAX_ALTERNATIVES := 3

  datatype Diagnosis = Diagnosis(
    diagnosisId: DiagnosisId,
    caseId: CaseId,
    rootCause: RootCause,
    confidence: Micros,
    alternatives: seq<RootCause>)

  predicate NoRepeats(xs: seq<RootCause>) {
    forall i, j :: 0 <= i < j < |xs| ==> xs[i] != xs[j]
  }

  /** The candidates that are not the primary, not ours and not blank, first mention only. */
  function Distinct(primary: RootCause, causes: seq<RootCause>): seq<RootCause> {
    if causes == [] then []
    else
      var kept := Distinct(primary, causes[..|causes| - 1]);
      var last := causes[|causes| - 1];
      if last == primary || last == H6OurSideSystemic || last == UnknownCause || last in kept then kept
      else kept + [last]
  }

  function FirstThree(xs: seq<RootCause>): seq<RootCause> {
    if |xs| > MAX_ALTERNATIVES then xs[..MAX_ALTERNATIVES] else xs
  }

  function Dispatch(candidates: seq<RootCause>): (RootCause, seq<RootCause>) {
    if candidates == [] || candidates[0] == H6OurSideSystemic || candidates[0] == UnknownCause then (UnknownCause, [])
    else (candidates[0], FirstThree(Distinct(candidates[0], candidates[1..])))
  }

  method DispatchCandidates(candidates: seq<RootCause>) returns (rootCause: RootCause, alternatives: seq<RootCause>)
    ensures (rootCause, alternatives) == Dispatch(candidates)
  {
    var primary := if candidates != [] then candidates[0] else UnknownCause;
    if primary == H6OurSideSystemic || primary == UnknownCause {
      return UnknownCause, [];
    }
    var rest := candidates[1..];
    alternatives := [];
    var i := 0;
    while i < |rest|
      invariant 0 <= i <= |rest|
      invariant alternatives == Distinct(primary, rest[..i])
    {
      var cause := rest[i];
      assert rest[..i + 1][..i] == rest[..i];
      i := i + 1;
      if cause == primary || cause == H6OurSideSystemic || cause == UnknownCause || cause in alternatives {
        continue;
      }
      alternatives := alternatives + [cause];
    }
    assert rest[..|rest|] == rest;
    alternatives := FirstThree(alternatives);
    rootCause := primary;
  }

  lemma {:induction false} DistinctIsClean(primary: RootCause, causes: seq<RootCause>)
    ensures NoRepeats(Distinct(primary, causes))
    ensures forall c :: c in Distinct(primary, causes) <==>
              c in causes && c != primary && c != H6OurSideSystemic && c != UnknownCause
  {
    if causes != [] {
      DistinctIsClean(primary, causes[..|causes| - 1]);
      assert causes == causes[..|causes| - 1] + [causes[|causes| - 1]];
    }
  }

  /** Only an overdue receivable has a default cause, and it always files an alternative. */
  function DispatchRiskClass(r: RiskClass): (RootCause, seq<RootCause>) {
    if r == OverdueReceivable then (H9B2bLiquidityOrWillfulDelay, [H8B2bProcessDefect]) else (UnknownCause, [])
  }

  function Diagnose(c: RiskCase): Diagnosis {
    var (cause, alternatives) :=
      if c.declineClass.Some? then Dispatch(CandidateCauses(c.declineClass.value)) else DispatchRiskClass(c.riskClass);
    var confidence :=
      if cause == UnknownCause then ABSTENTION_CONFIDENCE
      else if alternatives != [] then CONTESTED_CAUSE_CONFIDENCE
      else KNOWN_CAUSE_CONFIDENCE;
    Diagnosis(c.caseId, c.caseId, cause, confidence, alternatives)
  }

  /** Whatever the taxonomy lists, the dispatch yields a diagnosis the model accepts,
      and it never blames our own side. */
  lemma DispatchIsSound(candidates: seq<RootCause>)
    ensures var (cause, alternatives) := Dispatch(candidates);
            && cause != H6OurSideSystemic
            && cause !in alternatives && H6OurSideSystemic !in alternatives && UnknownCause !in alternatives
            && NoRepeats(alternatives) && |alternatives| <= 3
            && (forall c :: c in alternatives ==> c in candidates)
            && (cause == UnknownCause ==> alternatives == [])
            && (cause != UnknownCause ==>
                  && cause == candidates[0]
                  && (|alternatives| == 3 || forall c :: c in candidates && Namable(c) && c != cause ==> c in alternatives))
  {
    if candidates != [] {
      DistinctIsClean(candidates[0], candidates[1..]);
      var all := Distinct(candidates[0], candidates[1..]);
      assert forall c :: c in FirstThree(all) ==> c in all;
    }
  }

  lemma DiagnosesAreValid(c: RiskCase)
    ensures var d := Diagnose(c);
            && d.caseId == c.caseId && d.rootCause != H6OurSideSystemic
            && (d.rootCause == UnknownCause ==> d.confidence <= 500_000)
            && (forall i, j :: 0 <= i < j < |d.alternatives| ==> d.alternatives[i] != d.alternatives[j])
            && d.rootCause !in d.alternatives && |d.alternatives| <= 3
  {
    if c.declineClass.Some? {
      DispatchIsSound(CandidateCauses(c.declineClass.value));
    }
  }

  /** Which observed class, or risk class, leads to which cause. */
  predicate CauseFits(c: RiskCase, cause: RootCause) {
    var seen := c.declineClass;
    && (cause == H1TimingLiquidity <==>
          seen in {Some(InsufficientFunds), Some(IssuerTransientDecline), Some(NetworkRetryLimitExceeded)})
    && (cause == H2CredentialLifecycle <==>
          seen in {Some(CardExpired), Some(CardReplacedOrTokenInvalid), Some(CardLostOrStolen), Some(AccountClosedOrInvalid)})
    && (cause == H3MandateDeadOrPaused <==>
          seen in {Some(MandateInvalid), Some(MandateCancelled), Some(MandatePaused), Some(MandateExpired)})
    && (cause == H4AfaStepUpIncomplete <==>
          seen in {Some(AuthenticationRequired), Some(PayerAuthorizationMissingAmbiguous)})
    && (cause == H9B2bLiquidityOrWillfulDelay <==> seen.None? && c.riskClass == OverdueReceivable)
    && cause !in {H5DeliberateChurnIntent, H6OurSideSystemic, H7CommercialDispute, H8B2bProcessDefect}
  }

  /** The whole answer, class by class: three dispatches are contested, by whom, and each
      rung of confidence belongs to one kind of answer. */
  lemma DiagnosisByClass(c: RiskCase)
    ensures CauseFits(c, Diagnose(c).rootCause)
    ensures var d, seen := Diagnose(c), c.declineClass;
            && d.diagnosisId == c.caseId && d.caseId == c.caseId
            && d.alternatives == (if seen == Some(PayerAuthorizationMissingAmbiguous)
                                  then [H3MandateDeadOrPaused, H5DeliberateChurnIntent]
                                  else if seen == Some(MandatePaused) then [H5DeliberateChurnIntent]
                                  else if seen.None? && c.riskClass == OverdueReceivable then [H8B2bProcessDefect]
                                  else [])
            && d.confidence == (if d.rootCause == UnknownCause then 300_000
                                else if d.alternatives != [] then 520_000
                                else 600_000)
  {
    hide Dispatch;
    if c.declineClass.Some? {
      var candidates := CandidateCauses(c.declineClass.value);
      if !Namable(candidates[0]) {
        AbstainsFrom(candidates);
      } else if |candidates| == 1 {
        assert candidates == [candidates[0]];
        DispatchOne(candidates[0]);
      } else if |candidates| == 2 {
        assert candidates == [candidates[0], candidates[1]];
        DispatchTwo(candidates[0], candidates[1]);
      } else {
        assert candidates == [candidates[0], candidates[1], candidates[2]];
        DispatchThree(candidates[0], candidates[1], candidates[2]);
      }
    }
  }

  predicate Namable(cause: RootCause) {
    cause != H6OurSideSystemic && cause != UnknownCause
  }

  lemma AbstainsFrom(candidates: seq<RootCause>)
    requires candidates != [] && !Namable(candidates[0])
    ensures Dispatch(candidates) == (UnknownCause, [])
  {
  }

  lemma DispatchOne(a: RootCause)
    requires Namable(a)
    ensures Dispatch([a]) == (a, [])
  {
  }

  lemma DispatchTwo(a: RootCause, b: RootCause)
    requires Namable(a) && Namable(b) && a != b
    ensures Dispatch([a, b]) == (a, [b])
  {
    assert [a, b][1..] == [b];
    KeepsOne(a, b);
  }

  lemma DispatchThree(a: RootCause, b: RootCause, c: RootCause)
    requires Namable(a) && Namable(b) && Namable(c) && a != b && a != c && b != c
    ensures Dispatch([a, b, c]) == (a, [b, c])
  {
    assert [a, b, c][1..] == [b, c] && [b, c][..1] == [b];
    KeepsOne(a, b);
    assert [b] + [c] == [b, c];
    assert Distinct(a, [b, c]) == Distinct(a, [b]) + [c] by {
      assert [b, c][|[b, c]| - 1] == c && c !in [b];
    }
  }

  lemma KeepsOne(a: RootCause, b: RootCause)
    requires Namable(b) && a != b
    ensures Distinct(a, [b]) == [b]
  {
    assert [b][..0] == [];
    assert Distinct(a, []) == [];
    assert Distinct(a, [b]) == [] + [b];
  }

  /** A liquidity diagnosis comes from exactly three decline classes, and is never contested. */
  lemma LiquidityDiagnosis(c: RiskCase)
    ensures Diagnose(c).rootCause == H1TimingLiquidity <==>
              || c.declineClass == Some(InsufficientFunds)
              || c.declineClass == Some(IssuerTransientDecline)
              || c.declineClass == Some(NetworkRetryLimitExceeded)
    ensures Diagnose(c).alternatives != [] ==> Diagnose(c).rootCause != H1TimingLiquidity
  {
    if c.declineClass.Some? {
      var candidates := CandidateCauses(c.declineClass.value);
      DistinctIsClean(candidates[0], candidates[1..]);
      if Diagnose(c).alternatives != [] {
        assert Diagnose(c).alternatives[0] in Distinct(candidates[0], candidates[1..]);
      }
    }
  }
}
