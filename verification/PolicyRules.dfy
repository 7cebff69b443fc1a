/**
 The minimal rule set (reclaim/policy/rules.py): one complementary gate per category,
 with the configured thresholds interpolated into the predicates.
 */
module PolicyRules {
  import opened Wrappers
  import opened Vocabulary
  import opened Actions
  import opened PolicyFormat
  import opened PolicyEngine

  /** The configured numbers the flow and the gates read. Quiet hours are whole local hours. */
  datatype Thresholds = Thresholds(
    afaRequiredAbove: Paise,
    quietStartHour: nat,
    quietEndHour: nat,
    maxContactsPerChannelPer7d: int,
    maxContactsTotalPerCase: int,
    confidenceFloor: Micros)

  const MAX_DEBIT_ATTEMPTS_PER_RECOVERY_WINDOW := 3

  // ------------------------------------------------------------ gate construction

  /** The authored half of a gate; the permissive rule is derived from it. */
  datatype GateSpec = GateSpec(
    category: PolicyCategory,
    denyRuleId: RuleId,
    allowRuleId: RuleId,
    denyWhen: Predicate,
    effect: PolicyEffect,
    requiresTier: Option<Tier>)

  function Restrictive(g: GateSpec): PolicyRule {
    PolicyRule(g.denyRuleId, g.category, g.effect, Blocking, g.denyWhen, g.requiresTier, None, [], [], true)
  }

  /** Its condition is literally the negation of the restrictive one. */
  function Permissive(g: GateSpec): PolicyRule {
    PolicyRule(g.allowRuleId, g.category, Allow, Blocking, Not(g.denyWhen), None, None, [], [], true)
  }

  function RulesOf(gates: seq<GateSpec>): seq<PolicyRule> {
    if gates == [] then []
    else
      var g := gates[|gates| - 1];
      RulesOf(gates[..|gates| - 1]) + [Restrictive(g), Permissive(g)]
  }

  lemma {:induction false} RuleMembers(gates: seq<GateSpec>)
    ensures forall r :: r in RulesOf(gates) <==> exists g :: g in gates && (r == Restrictive(g) || r == Permissive(g))
  {
    if gates != [] {
      var g := gates[|gates| - 1];
      RuleMembers(gates[..|gates| - 1]);
      assert gates == gates[..|gates| - 1] + [g];
      forall r | r in RulesOf(gates)
        ensures exists g :: g in gates && (r == Restrictive(g) || r == Permissive(g))
      {
        if r in RulesOf(gates[..|gates| - 1]) {
          var h :| h in gates[..|gates| - 1] && (r == Restrictive(h) || r == Permissive(h));
          assert h in gates;
        } else {
          assert g in gates;
        }
      }
    }
  }

  // ------------------------------------------------------------ what a set of gates decides

  predicate Relevant(g: GateSpec, q: Request) {
    g.category in CategoriesOf(q.actionType)
  }

  /** The gate's condition can be read off the facts. */
  predicate Answerable(g: GateSpec, facts: Facts) {
    FactsReferenced(g.denyWhen) <= facts.Keys && Matches(g.denyWhen, facts).Success?
  }

  predicate Fires(g: GateSpec, facts: Facts) {
    Matches(g.denyWhen, facts) == Success(true)
  }

  predicate GateShape(g: GateSpec) {
    && (g.effect == Deny || g.effect == AllowWithApproval)
    && (g.requiresTier.Some? <==> g.effect == AllowWithApproval)
  }

  /** The one verdict a gate returns. */
  function GateVerdict(g: GateSpec, facts: Facts): PolicyVerdict {
    if Fires(g, facts) then PolicyVerdict(g.denyRuleId, g.category, g.effect, Blocking, g.requiresTier, None)
    else PolicyVerdict(g.allowRuleId, g.category, Allow, Blocking, None, None)
  }

  /** Exactly one half of an answerable gate speaks. */
  lemma GateSpeaksOnce(g: GateSpec, facts: Facts)
    requires Answerable(g, facts) && GateShape(g)
    ensures Consult(Restrictive(g), facts) == if Fires(g, facts) then Speaks(GateVerdict(g, facts)) else Silent
    ensures Consult(Permissive(g), facts) == if Fires(g, facts) then Silent else Speaks(GateVerdict(g, facts))
  {
  }

  ghost predicate FiresSomewhere(gates: seq<GateSpec>, q: Request, facts: Facts, effect: PolicyEffect) {
    exists g :: g in gates && Relevant(g, q) && g.effect == effect && Fires(g, facts)
  }

  ghost predicate Ready(gates: seq<GateSpec>, q: Request, facts: Facts) {
    && (forall g :: g in gates ==> GateShape(g))
    && (forall g :: g in gates && Relevant(g, q) ==> Answerable(g, facts))
    && (forall c :: c in CategoriesOf(q.actionType) ==> exists g :: g in gates && g.category == c)
  }

  /** `v` is the verdict of one of the relevant gates. */
  ghost predicate FromGate(v: PolicyVerdict, gates: seq<GateSpec>, q: Request, facts: Facts) {
    exists g :: g in gates && Relevant(g, q) && v == GateVerdict(g, facts)
  }

  lemma GateRulesAnswer(gates: seq<GateSpec>, q: Request, facts: Facts)
    requires Ready(gates, q, facts)
    ensures forall r :: r in RulesOf(gates) && InScope(r, q) ==>
              && !Consult(r, facts).Unevaluable? && !Consult(r, facts).Broken?
              && (Consult(r, facts).Speaks? ==> FromGate(Consult(r, facts).verdict, gates, q, facts))
  {
    RuleMembers(gates);
    forall r | r in RulesOf(gates) && InScope(r, q)
      ensures !Consult(r, facts).Unevaluable? && !Consult(r, facts).Broken?
      ensures Consult(r, facts).Speaks? ==> FromGate(Consult(r, facts).verdict, gates, q, facts)
    {
      var g :| g in gates && (r == Restrictive(g) || r == Permissive(g));
      GateSpeaksOnce(g, facts);
    }
  }

  lemma GateIsHeard(gates: seq<GateSpec>, q: Request, facts: Facts, g: GateSpec)
    requires Ready(gates, q, facts)
    requires g in gates && Relevant(g, q)
    ensures Spoken(GateVerdict(g, facts), RulesOf(gates), q, facts)
  {
    RuleMembers(gates);
    GateSpeaksOnce(g, facts);
    var r := if Fires(g, facts) then Restrictive(g) else Permissive(g);
    assert r in RulesOf(gates) && InScope(r, q) && Consult(r, facts) == Speaks(GateVerdict(g, facts));
  }

  /** The verdicts of a gate set are exactly one per relevant gate. */
  lemma GateVerdictsAreTheVerdicts(gates: seq<GateSpec>, q: Request, facts: Facts)
    requires Ready(gates, q, facts)
    ensures FirstBreak(Selected(RulesOf(gates), q), facts).None?
    ensures UnevaluableIds(Selected(RulesOf(gates), q), facts) == []
    ensures forall v :: v in VerdictsOf(Selected(RulesOf(gates), q), facts) <==> FromGate(v, gates, q, facts)
  {
    GateRulesAnswer(gates, q, facts);
    VerdictsOfSelected(RulesOf(gates), q, facts);
    NothingUnevaluable(RulesOf(gates), q, facts);
    var vs := VerdictsOf(Selected(RulesOf(gates), q), facts);
    forall v | v in vs ensures FromGate(v, gates, q, facts) {
      var r :| r in RulesOf(gates) && InScope(r, q) && Consult(r, facts) == Speaks(v);
    }
    forall v | FromGate(v, gates, q, facts) ensures v in vs {
      var g :| g in gates && Relevant(g, q) && v == GateVerdict(g, facts);
      GateIsHeard(gates, q, facts, g);
    }
  }

  /** For any list of complementary gates that covers the verb's categories: nothing is
      unevaluable or silent, and the effect is DENY exactly when a relevant denying gate
      fires, ALLOW_WITH_APPROVAL exactly when only approval gates fire, else ALLOW. */
  lemma GatesDecide(gates: seq<GateSpec>, q: Request, facts: Facts)
    requires Ready(gates, q, facts)
    ensures Evaluate(RulesOf(gates), q, facts).Success?
    ensures var e := Evaluate(RulesOf(gates), q, facts).value;
            && e.silentCategories == {} && e.unevaluableRuleIds == [] && !e.decision.failedClosed
            && (e.decision.effect == Deny <==> FiresSomewhere(gates, q, facts, Deny))
            && (e.decision.effect == AllowWithApproval <==>
                  !FiresSomewhere(gates, q, facts, Deny) && FiresSomewhere(gates, q, facts, AllowWithApproval))
            && (e.decision.effect == Allow <==>
                  !FiresSomewhere(gates, q, facts, Deny) && !FiresSomewhere(gates, q, facts, AllowWithApproval))
  {
    GatesEvaluate(gates, q, facts);
    GatesSettleTheEffect(gates, q, facts);
  }

  lemma GatesEvaluate(gates: seq<GateSpec>, q: Request, facts: Facts)
    requires Ready(gates, q, facts)
    ensures var vs := VerdictsOf(Selected(RulesOf(gates), q), facts);
            Evaluate(RulesOf(gates), q, facts) == Success(Evaluation(Combine(vs), {}, [])) && !Combine(vs).failedClosed
  {
    GateVerdictsAreTheVerdicts(gates, q, facts);
    GatesCover(gates, q, facts, VerdictsOf(Selected(RulesOf(gates), q), facts));
    FullyCovered(RulesOf(gates), q, facts);
  }

  lemma GatesSettleTheEffect(gates: seq<GateSpec>, q: Request, facts: Facts)
    requires Ready(gates, q, facts)
    requires !Combine(VerdictsOf(Selected(RulesOf(gates), q), facts)).failedClosed
    ensures var d := Combine(VerdictsOf(Selected(RulesOf(gates), q), facts));
            && (d.effect == Deny <==> FiresSomewhere(gates, q, facts, Deny))
            && (d.effect == AllowWithApproval <==>
                  !FiresSomewhere(gates, q, facts, Deny) && FiresSomewhere(gates, q, facts, AllowWithApproval))
            && d.effect != Defer
  {
    GateVerdictsAreTheVerdicts(gates, q, facts);
    GateEffects(gates, q, facts, VerdictsOf(Selected(RulesOf(gates), q), facts));
  }

  /** One verdict for each relevant gate, in the order of the gates. */
  function Heard(gates: seq<GateSpec>, q: Request, facts: Facts): seq<PolicyVerdict> {
    if gates == [] then []
    else Heard(gates[..|gates| - 1], q, facts) + HeardFrom(gates[|gates| - 1], q, facts)
  }

  function HeardFrom(g: GateSpec, q: Request, facts: Facts): seq<PolicyVerdict> {
    if Relevant(g, q) then [GateVerdict(g, facts)] else []
  }

  lemma OneMoreRule(rules: seq<PolicyRule>, r: PolicyRule, q: Request, facts: Facts)
    ensures VerdictsOf(Selected(rules + [r], q), facts)
         == VerdictsOf(Selected(rules, q), facts)
            + (if InScope(r, q) && Consult(r, facts).Speaks? then [Consult(r, facts).verdict] else [])
  {
    hide Consult, InScope;
    var more := rules + [r];
    assert more[..|rules|] == rules;
    var selected := Selected(rules, q);
    if InScope(r, q) {
      assert (selected + [r])[..|selected|] == selected;
    } else {
      assert selected + [] == selected;
    }
  }

  /** The record of an evaluation: the gates are heard in order, once each. */
  lemma {:induction false} GatesAreHeardInOrder(gates: seq<GateSpec>, q: Request, facts: Facts)
    requires forall i :: 0 <= i < |gates| ==> GateShape(gates[i]) && (Relevant(gates[i], q) ==> Answerable(gates[i], facts))
    ensures VerdictsOf(Selected(RulesOf(gates), q), facts) == Heard(gates, q, facts)
  {
    hide Selected, VerdictsOf, Consult, Answerable, Fires, GateVerdict;
    if gates == [] {
      NothingHeard(q, facts);
    } else {
      var before, g := gates[..|gates| - 1], gates[|gates| - 1];
      GatesAreHeardInOrder(before, q, facts);
      var rules := RulesOf(before);
      OneMoreRule(rules, Restrictive(g), q, facts);
      OneMoreRule(rules + [Restrictive(g)], Permissive(g), q, facts);
      assert rules + [Restrictive(g), Permissive(g)] == rules + [Restrictive(g)] + [Permissive(g)];
      if Relevant(g, q) {
        GateSpeaksOnce(g, facts);
      }
    }
  }

  lemma NothingHeard(q: Request, facts: Facts)
    ensures VerdictsOf(Selected([], q), facts) == []
  {
  }

  lemma GatesCover(gates: seq<GateSpec>, q: Request, facts: Facts, vs: seq<PolicyVerdict>)
    requires Ready(gates, q, facts)
    requires forall v :: v in vs <==> FromGate(v, gates, q, facts)
    ensures forall c :: c in CategoriesOf(q.actionType) ==> Covers(vs, c)
  {
    forall c | c in CategoriesOf(q.actionType) ensures Covers(vs, c) {
      var g :| g in gates && g.category == c;
      assert FromGate(GateVerdict(g, facts), gates, q, facts);
    }
  }

  lemma GateEffects(gates: seq<GateSpec>, q: Request, facts: Facts, vs: seq<PolicyVerdict>)
    requires forall g :: g in gates ==> GateShape(g)
    requires forall v :: v in vs <==> FromGate(v, gates, q, facts)
    requires !Combine(vs).failedClosed
    ensures Combine(vs).effect == Deny <==> FiresSomewhere(gates, q, facts, Deny)
    ensures Combine(vs).effect == AllowWithApproval <==>
              !FiresSomewhere(gates, q, facts, Deny) && FiresSomewhere(gates, q, facts, AllowWithApproval)
    ensures Combine(vs).effect != Defer
  {
    CombineMeaning(vs);
    var v :| v in vs && v.severity == Blocking && v.effect == Combine(vs).effect;
    var g :| g in gates && Relevant(g, q) && v == GateVerdict(g, facts);
    forall h | h in gates && Relevant(h, q) && Fires(h, facts)
      ensures Strictness(h.effect) <= Strictness(Combine(vs).effect)
    {
      assert FromGate(GateVerdict(h, facts), gates, q, facts);
    }
  }

  // ------------------------------------------------------------ the eight gates

  function Test(k: FactKey, op: Operator, v: FactValue): Predicate {
    FactTest(k, op, One(v))
  }

  function IsTrue(k: FactKey): Predicate { Test(k, Eq, BoolValue(true)) }

  function IsFalse(k: FactKey): Predicate { Test(k, Eq, BoolValue(false)) }

  function ConsentGate(t: Thresholds): GateSpec {
    GateSpec(ConsentAndChannel, 0, 1,
      AnyOf([IsTrue(IsOptedOut), IsTrue(IsOnDncList), IsFalse(ConsentRecordExists),
             IsFalse(HasChannelConsent), IsFalse(DpdpPurposeCoversAction), IsFalse(ConsentLanguageMatches)]),
      Deny, None)
  }

  function TimingGate(t: Thresholds): GateSpec {
    GateSpec(Timing, 14, 15, AnyOf([IsFalse(IsWithinQuietHours), IsTrue(IsDeclaredHoliday)]), Deny, None)
  }

  function FrequencyGate(t: Thresholds): GateSpec {
    GateSpec(Frequency, 6, 7,
      AnyOf([Test(ContactsOnChannelLast7d, Gte, IntValue(t.maxContactsPerChannelPer7d)),
             Test(ContactsTotalThisCase, Gte, IntValue(t.maxContactsTotalPerCase))]),
      Deny, None)
  }

  function RailGate(t: Thresholds): GateSpec {
    GateSpec(RailAndNetwork, 12, 13,
      AnyOf([IsFalse(MandateIsDebitable), IsTrue(LastDeclineWasHard),
             Test(NetworkRetryCountThisWindow, Gte, IntValue(MAX_DEBIT_ATTEMPTS_PER_RECOVERY_WINDOW))]),
      Deny, None)
  }

  function ContentGate(t: Thresholds): GateSpec {
    GateSpec(Content, 2, 3,
      AnyOf([IsTrue(ContainsBannedPhrase), IsTrue(HasFreeTextSlot), IsFalse(TemplateIsDltRegistered)]),
      Deny, None)
  }

  /** Above the threshold a human approves; the lattice still lets any denial win. */
  function FinancialAuthorityGate(t: Thresholds): GateSpec {
    GateSpec(FinancialAuthority, 4, 5, Test(DebitAmount, Gt, MoneyValue(t.afaRequiredAbove)),
      AllowWithApproval, Some(T2))
  }

  const HOLD_FACTS := [IsOptedOut, HasActiveHold, HasOpenDispute, HasHardshipFlag, HasLegalHold,
                       HasOpenChargeback, InSuppressedCohort, HasOpenIncidentAttributableToUs]

  function AllTrueTests(ks: seq<FactKey>): seq<Predicate> {
    seq(|ks|, i requires 0 <= i < |ks| => IsTrue(ks[i]))
  }

  function HoldsGate(t: Thresholds): GateSpec {
    GateSpec(Holds, 8, 9, AnyOf(AllTrueTests(HOLD_FACTS)), Deny, None)
  }

  function IntegrityGate(t: Thresholds): GateSpec {
    GateSpec(Integrity, 10, 11, AnyOf([IsTrue(IdempotencyKeyAlreadyUsed), IsTrue(ObligationAlreadySettled)]), Deny, None)
  }

  function MinimalGates(t: Thresholds): seq<GateSpec> {
    [ConsentGate(t), TimingGate(t), FrequencyGate(t), RailGate(t),
     ContentGate(t), FinancialAuthorityGate(t), HoldsGate(t), IntegrityGate(t)]
  }

  lemma GateRulesAreValid(g: GateSpec)
    requires GateShape(g) && PredicateWellFormed(g.denyWhen)
    ensures Restrictive(g).Valid() && Permissive(g).Valid()
  {
  }

  predicate LeafSuits(p: Predicate) {
    p.FactTest? && LeafWellFormed(p.fact, p.op, p.literal)
  }

  /** One test, or a disjunction of them, each suiting its fact. */
  predicate TestsSuit(g: GateSpec) {
    && GateShape(g)
    && (LeafSuits(g.denyWhen)
        || (g.denyWhen.AnyOf? && g.denyWhen.anyOf != []
            && forall i :: 0 <= i < |g.denyWhen.anyOf| ==> LeafSuits(g.denyWhen.anyOf[i])))
  }

  lemma {:induction false} AnyOfTests(ps: seq<Predicate>)
    requires forall i :: 0 <= i < |ps| ==> LeafSuits(ps[i])
    ensures AllWellFormed(ps)
  {
    if ps != [] {
      AnyOfTests(ps[1..]);
    }
  }

  lemma HoldTestsSuit(t: Thresholds)
    ensures TestsSuit(HoldsGate(t))
  {
    forall i | 0 <= i < |HOLD_FACTS| ensures LeafSuits(IsTrue(HOLD_FACTS[i])) {
    }
  }

  lemma ConsentTestsSuit(t: Thresholds)
    ensures TestsSuit(ConsentGate(t))
  {
  }

  lemma ContactTestsSuit(t: Thresholds)
    ensures TestsSuit(TimingGate(t)) && TestsSuit(FrequencyGate(t))
  {
  }

  lemma ContentTestsSuit(t: Thresholds)
    ensures TestsSuit(ContentGate(t)) && TestsSuit(IntegrityGate(t))
  {
  }

  lemma MoneyTestsSuit(t: Thresholds)
    ensures TestsSuit(RailGate(t)) && TestsSuit(FinancialAuthorityGate(t))
  {
  }

  /** Every shipped rule passes the rule validator, whatever the thresholds. */
  lemma ShippedRulesAreValid(t: Thresholds)
    ensures forall r :: r in RulesOf(MinimalGates(t)) ==> r.Valid()
  {
    hide TestsSuit, ConsentGate, TimingGate, FrequencyGate, ContentGate, RailGate, FinancialAuthorityGate, HoldsGate, IntegrityGate;
    HoldTestsSuit(t);
    ConsentTestsSuit(t);
    ContactTestsSuit(t);
    ContentTestsSuit(t);
    MoneyTestsSuit(t);
    var gates := MinimalGates(t);
    RuleMembers(gates);
    forall r | r in RulesOf(gates) ensures r.Valid() {
      var g :| g in gates && (r == Restrictive(g) || r == Permissive(g));
      SuitedGateIsValid(g);
    }
  }

  lemma SuitedGateIsValid(g: GateSpec)
    requires TestsSuit(g)
    ensures Restrictive(g).Valid() && Permissive(g).Valid()
  {
    if g.denyWhen.AnyOf? {
      AnyOfTests(g.denyWhen.anyOf);
    }
    GateRulesAreValid(g);
  }

  method BuildMinimalRuleSet(t: Thresholds) returns (rules: seq<PolicyRule>)
    ensures rules == RulesOf(MinimalGates(t))
  {
    var gates := MinimalGates(t);
    rules := [];
    var i := 0;
    while i < |gates|
      invariant 0 <= i <= |gates|
      invariant rules == RulesOf(gates[..i])
    {
      assert gates[..i + 1][..i] == gates[..i];
      rules := rules + [Restrictive(gates[i]), Permissive(gates[i])];
      i := i + 1;
    }
    assert gates[..|gates|] == gates;
  }

  // ------------------------------------------------------------ disjunctions of leaves

  /** The leaf can be read off the facts, and reads as `b`. */
  predicate LeafReads(p: Predicate, facts: Facts, b: bool) {
    p.FactTest? && p.fact in facts && Compare(p.op, facts[p.fact], p.literal) == Success(b)
  }

  ghost predicate LeavesRead(ps: seq<Predicate>, facts: Facts, bs: seq<bool>)
    requires |ps| == |bs|
  {
    forall i :: 0 <= i < |ps| ==> LeafReads(ps[i], facts, bs[i])
  }

  /** A disjunction of readable leaves holds exactly when one of the leaves does. */
  lemma {:induction false} AnyLeaf(ps: seq<Predicate>, facts: Facts, bs: seq<bool>)
    requires |ps| == |bs| && LeavesRead(ps, facts, bs)
    ensures MatchesUntil(ps, facts, true) == Success(true in bs)
    ensures FactsReferencedByAny(ps) <= facts.Keys
  {
    if ps != [] {
      assert LeafReads(ps[0], facts, bs[0]);
      AnyLeaf(ps[1..], facts, bs[1..]);
      assert bs == [bs[0]] + bs[1..];
    }
  }

  lemma GateOfLeaves(g: GateSpec, facts: Facts, bs: seq<bool>)
    requires g.denyWhen.AnyOf? && |g.denyWhen.anyOf| == |bs|
    requires LeavesRead(g.denyWhen.anyOf, facts, bs)
    ensures Answerable(g, facts)
    ensures Fires(g, facts) <==> true in bs
  {
    AnyLeaf(g.denyWhen.anyOf, facts, bs);
  }
}
