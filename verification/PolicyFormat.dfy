/**
 The policy rule format (reclaim/contracts/policy_format.py): the closed fact
 vocabulary, the predicate tree, rules, verdicts and their combination.
 */
module PolicyFormat {
  import opened Wrappers
  import opened Vocabulary
  import opened Actions

  // ------------------------------------------------------------ facts

  datatype FactType = BooleanFact | MoneyFact | CountFact | DurationFact | TimestampFact | EnumFact | ProbabilityFact

  datatype FactKey =
    | HasChannelConsent | ConsentRecordExists | IsOnDncList | IsOptedOut
    | ConsentLanguageMatches | DpdpPurposeCoversAction
    | IsWithinQuietHours | QuietHoursEndAt | IsDeclaredHoliday | HoursSinceLastLadderStep
    | ContactsOnChannelLast7d | ContactsTotalThisCase | HoursSinceLastContact
    | MandateIsDebitable | MandateCap | DebitAmount | HoursSincePreDebitNotification
    | PreDebitNotificationDelivered | NetworkRetryCountThisWindow
    | ConsecutiveHardDeclines | LastDeclineWasHard | RailFact
    | TemplateIsDltRegistered | TemplateLanguage | ContainsBannedPhrase
    | HasFreeTextSlot | DisclosesAutomatedCall
    | ObligationOutstanding | ConcessionValue | PaymentPlanInstalmentCount | GracePeriodDays
    | HasActiveHold | HasOpenDispute | HasHardshipFlag | HasLegalHold
    | HasOpenChargeback | InSuppressedCohort | HasOpenIncidentAttributableToUs
    | IdempotencyKeyAlreadyUsed | DuplicateWithinDedupeWindow | HasActiveReauthLink
    | ReconciliationIsFresh | ObligationAlreadySettled
    | SegmentFact | IsFirstContact | DiagnosisConfidence | FailureClassIsNovel

  function TypeOfFact(k: FactKey): FactType {
    match k
    case QuietHoursEndAt => TimestampFact
    case HoursSinceLastLadderStep => DurationFact
    case HoursSinceLastContact => DurationFact
    case HoursSincePreDebitNotification => DurationFact
    case ContactsOnChannelLast7d => CountFact
    case ContactsTotalThisCase => CountFact
    case NetworkRetryCountThisWindow => CountFact
    case ConsecutiveHardDeclines => CountFact
    case PaymentPlanInstalmentCount => CountFact
    case GracePeriodDays => CountFact
    case MandateCap => MoneyFact
    case DebitAmount => MoneyFact
    case ObligationOutstanding => MoneyFact
    case ConcessionValue => MoneyFact
    case RailFact => EnumFact
    case TemplateLanguage => EnumFact
    case SegmentFact => EnumFact
    case DiagnosisConfidence => ProbabilityFact
    case _ => BooleanFact
  }

  /** A member of one of the three vocabularies an ENUM fact may range over. */
  datatype EnumValue = RailValue(rail: Rail) | LanguageValue(language: Language) | SegmentValue(segment: Segment)

  datatype FactValue =
    | BoolValue(b: bool)
    | MoneyValue(paise: Paise)
    | IntValue(n: int)
    | TimeValue(at: Instant)
    | ProbValue(p: Micros)
    | EnumMember(member: EnumValue)

  /** Whether `v` is a legal value of the fact `k` (`validate_facts`). */
  predicate ValueSuits(k: FactKey, v: FactValue) {
    match TypeOfFact(k)
    case BooleanFact => v.BoolValue?
    case MoneyFact => v.MoneyValue?
    case CountFact => v.IntValue?
    case DurationFact => v.IntValue?
    case TimestampFact => v.TimeValue?
    case ProbabilityFact => v.ProbValue?
    case EnumFact =>
      && v.EnumMember?
      && match k {
           case RailFact => v.member.RailValue?
           case TemplateLanguage => v.member.LanguageValue?
           case _ => v.member.SegmentValue?
         }
  }

  type Facts = map<FactKey, FactValue>

  predicate WellTyped(facts: Facts) {
    forall k :: k in facts ==> ValueSuits(k, facts[k])
  }

  // ------------------------------------------------------------ predicates

  datatype Operator = Eq | Ne | Gt | Gte | Lt | Lte | In | NotIn

  datatype Literal = One(v: FactValue) | Many(vs: seq<FactValue>)

  datatype Predicate =
    | FactTest(fact: FactKey, op: Operator, literal: Literal)
    | AllOf(allOf: seq<Predicate>)
    | AnyOf(anyOf: seq<Predicate>)
    | Not(negate: Predicate)

  function FactsReferenced(p: Predicate): set<FactKey>
    decreases p, 0
  {
    match p
    case FactTest(k, _, _) => {k}
    case AllOf(ps) => FactsReferencedByAny(ps)
    case AnyOf(ps) => FactsReferencedByAny(ps)
    case Not(q) => FactsReferenced(q)
  }

  function FactsReferencedByAny(ps: seq<Predicate>): set<FactKey>
    decreases ps, 1
  {
    if ps == [] then {} else FactsReferenced(ps[0]) + FactsReferencedByAny(ps[1..])
  }

  /** A leaf whose literal suits its fact, ordering only where an order exists. */
  predicate LeafWellFormed(k: FactKey, op: Operator, literal: Literal) {
    match op
    case In => literal.Many? && (TypeOfFact(k) == EnumFact ==> forall v :: v in literal.vs ==> ValueSuits(k, v))
    case NotIn => literal.Many? && (TypeOfFact(k) == EnumFact ==> forall v :: v in literal.vs ==> ValueSuits(k, v))
    case Eq => literal.One? && ValueSuits(k, literal.v)
    case Ne => literal.One? && ValueSuits(k, literal.v)
    case _ =>
      && literal.One? && ValueSuits(k, literal.v)
      && TypeOfFact(k) != BooleanFact && TypeOfFact(k) != EnumFact
  }

  predicate PredicateWellFormed(p: Predicate)
    decreases p, 0
  {
    match p
    case FactTest(k, op, l) => LeafWellFormed(k, op, l)
    case AllOf(ps) => ps != [] && AllWellFormed(ps)
    case AnyOf(ps) => ps != [] && AllWellFormed(ps)
    case Not(q) => PredicateWellFormed(q)
  }

  predicate AllWellFormed(ps: seq<Predicate>)
    decreases ps, 1
  {
    ps == [] || (PredicateWellFormed(ps[0]) && AllWellFormed(ps[1..]))
  }

  /** The typed vocabulary read by value: which facts a value of each kind may state. */
  lemma SuitsExactly(k: FactKey, v: FactValue)
    ensures ValueSuits(k, v) <==>
              match v {
                case MoneyValue(_) => k in {MandateCap, DebitAmount, ObligationOutstanding, ConcessionValue}
                case IntValue(_) =>
                  k in {ContactsOnChannelLast7d, ContactsTotalThisCase, NetworkRetryCountThisWindow, ConsecutiveHardDeclines,
                        PaymentPlanInstalmentCount, GracePeriodDays, HoursSinceLastLadderStep, HoursSinceLastContact,
                        HoursSincePreDebitNotification}
                case TimeValue(_) => k == QuietHoursEndAt
                case ProbValue(_) => k == DiagnosisConfidence
                case EnumMember(RailValue(_)) => k == RailFact
                case EnumMember(LanguageValue(_)) => k == TemplateLanguage
                case EnumMember(SegmentValue(_)) => k == SegmentFact
                case BoolValue(_) =>
                  k !in {MandateCap, DebitAmount, ObligationOutstanding, ConcessionValue, ContactsOnChannelLast7d,
                         ContactsTotalThisCase, NetworkRetryCountThisWindow, ConsecutiveHardDeclines,
                         PaymentPlanInstalmentCount, GracePeriodDays, HoursSinceLastLadderStep, HoursSinceLastContact,
                         HoursSincePreDebitNotification, QuietHoursEndAt, DiagnosisConfidence, RailFact, TemplateLanguage,
                         SegmentFact}
              }
  {
  }

  /** Which leaves the rule format takes: for a list only membership, checked member by
      member on an enumerated fact. */
  lemma ListLeafExactly(k: FactKey, op: Operator, vs: seq<FactValue>)
    ensures LeafWellFormed(k, op, Many(vs)) <==>
              && (op == In || op == NotIn)
              && (k == RailFact || k == TemplateLanguage || k == SegmentFact ==> forall v :: v in vs ==> ValueSuits(k, v))
  {
    hide ValueSuits;
  }

  /** For one value anything else, if the value suits the fact; an order only where there is one. */
  lemma ValueLeafExactly(k: FactKey, op: Operator, v: FactValue)
    ensures LeafWellFormed(k, op, One(v)) <==>
              op != In && op != NotIn && ValueSuits(k, v) && (op == Eq || op == Ne || !(v.BoolValue? || v.EnumMember?))
  {
    hide ValueSuits, TypeOfFact;
    if ValueSuits(k, v) {
      KindsAgree(k, v);
    }
  }

  lemma KindsAgree(k: FactKey, v: FactValue)
    requires ValueSuits(k, v)
    ensures v.BoolValue? <==> TypeOfFact(k) == BooleanFact
    ensures v.EnumMember? <==> TypeOfFact(k) == EnumFact
  {
    hide TypeOfFact;
  }

  /** And which trees: no empty connective anywhere. */
  lemma {:induction false} AllWellFormedExactly(ps: seq<Predicate>)
    ensures AllWellFormed(ps) <==> forall i :: 0 <= i < |ps| ==> PredicateWellFormed(ps[i])
  {
    if ps != [] {
      AllWellFormedExactly(ps[1..]);
      assert forall i :: 0 < i < |ps| ==> ps[i] == ps[1..][i - 1];
    }
  }

  lemma WellFormedExactly(p: Predicate)
    ensures PredicateWellFormed(p) <==>
              match p {
                case FactTest(k, op, literal) => LeafWellFormed(k, op, literal)
                case AllOf(ps) => |ps| > 0 && forall i :: 0 <= i < |ps| ==> PredicateWellFormed(ps[i])
                case AnyOf(ps) => |ps| > 0 && forall i :: 0 <= i < |ps| ==> PredicateWellFormed(ps[i])
                case Not(q) => PredicateWellFormed(q)
              }
  {
    match p
    case AllOf(ps) => AllWellFormedExactly(ps);
    case AnyOf(ps) => AllWellFormedExactly(ps);
    case _ =>
  }

  // ------------------------------------------------------------ rules and verdicts

  /** Rule ids are compared only by their order, so an id stands for its rank. */
  type RuleId = nat

  datatype PolicyEffect = Allow | AllowWithApproval | Defer | Deny

  datatype Severity = Blocking | Advisory

  datatype Tier = T0 | T1 | T2 | T3 {
    function Rank(): nat {
      match this case T0 => 0 case T1 => 1 case T2 => 2 case T3 => 3
    }
  }

  datatype PolicyRule = PolicyRule(
    ruleId: RuleId,
    category: PolicyCategory,
    effect: PolicyEffect,
    severity: Severity,
    when: Predicate,
    requiresTier: Option<Tier>,
    deferUntilFact: Option<FactKey>,
    appliesToSegments: seq<Segment>,
    appliesToChannels: seq<Channel>,
    enabled: bool)
  {
    /** The rule validator: DEFER names a timestamp, a tier rides only on an approval. */
    predicate Valid() {
      && PredicateWellFormed(when)
      && (effect == Defer ==> deferUntilFact.Some?)
      && (deferUntilFact.Some? ==> TypeOfFact(deferUntilFact.value) == TimestampFact)
      && (requiresTier.Some? ==> effect == AllowWithApproval)
    }
  }

  /** A deferral names a fact that is an instant, and a tier rides on an approval only. */
  lemma RuleValidExactly(r: PolicyRule)
    ensures r.Valid() <==>
              && PredicateWellFormed(r.when)
              && (r.deferUntilFact == Some(QuietHoursEndAt) || (r.deferUntilFact == None && r.effect != Defer))
              && (r.requiresTier == None || r.effect == AllowWithApproval)
  {
  }

  predicate UniqueIds(rules: seq<PolicyRule>) {
    forall i, j :: 0 <= i < j < |rules| ==> rules[i].ruleId != rules[j].ruleId
  }

  datatype PolicyVerdict = PolicyVerdict(
    ruleId: RuleId,
    category: PolicyCategory,
    effect: PolicyEffect,
    severity: Severity,
    requiresTier: Option<Tier>,
    deferUntil: Option<Instant>)

  datatype PolicyDecision = PolicyDecision(
    effect: PolicyEffect,
    decidingRuleId: Option<RuleId>,
    verdicts: seq<PolicyVerdict>,
    advisoryRuleIds: seq<RuleId>,
    requiresTier: Option<Tier>,
    deferUntil: Option<Instant>,
    failedClosed: bool)

  // ------------------------------------------------------------ combining verdicts

  /** The total order of effects: the strictest wins. */
  function Strictness(e: PolicyEffect): nat {
    match e case Allow => 0 case AllowWithApproval => 1 case Defer => 2 case Deny => 3
  }

  function BlockingOf(vs: seq<PolicyVerdict>): seq<PolicyVerdict> {
    if vs == [] then []
    else (if vs[0].severity == Blocking then [vs[0]] else []) + BlockingOf(vs[1..])
  }

  function AdvisoryIds(vs: seq<PolicyVerdict>): seq<RuleId> {
    if vs == [] then []
    else (if vs[0].severity == Advisory then [vs[0].ruleId] else []) + AdvisoryIds(vs[1..])
  }

  function MaxStrictness(vs: seq<PolicyVerdict>): nat
    requires vs != []
  {
    var s := Strictness(vs[0].effect);
    if |vs| == 1 then s
    else var t := MaxStrictness(vs[1..]); if t > s then t else s
  }

  function WinnersOf(vs: seq<PolicyVerdict>, strictest: nat): seq<PolicyVerdict> {
    if vs == [] then []
    else (if Strictness(vs[0].effect) == strictest then [vs[0]] else []) + WinnersOf(vs[1..], strictest)
  }

  function MinRuleId(vs: seq<PolicyVerdict>): RuleId
    requires vs != []
  {
    if |vs| == 1 then vs[0].ruleId
    else var t := MinRuleId(vs[1..]); if t < vs[0].ruleId then t else vs[0].ruleId
  }

  function StrictestTier(vs: seq<PolicyVerdict>): Option<Tier> {
    if vs == [] then None
    else
      var rest := StrictestTier(vs[1..]);
      match vs[0].requiresTier
      case None => rest
      case Some(t) => if rest.Some? && rest.value.Rank() > t.Rank() then rest else Some(t)
  }

  function LatestDefer(vs: seq<PolicyVerdict>): Option<Instant> {
    if vs == [] then None
    else
      var rest := LatestDefer(vs[1..]);
      match vs[0].deferUntil
      case None => rest
      case Some(t) => if rest.Some? && rest.value > t then rest else Some(t)
  }

  lemma {:induction false} MaxStrictnessAttained(vs: seq<PolicyVerdict>)
    requires vs != []
    ensures exists v :: v in vs && Strictness(v.effect) == MaxStrictness(vs)
    ensures forall v :: v in vs ==> Strictness(v.effect) <= MaxStrictness(vs)
  {
    if |vs| > 1 {
      MaxStrictnessAttained(vs[1..]);
      assert vs == [vs[0]] + vs[1..];
    }
    assert vs[0] in vs;
  }

  lemma {:induction false} WinnersAreTheMaxima(vs: seq<PolicyVerdict>, s: nat)
    ensures forall v :: v in WinnersOf(vs, s) <==> v in vs && Strictness(v.effect) == s
  {
    if vs != [] {
      WinnersAreTheMaxima(vs[1..], s);
      assert vs == [vs[0]] + vs[1..];
    }
  }

  lemma {:induction false} BlockingMembers(vs: seq<PolicyVerdict>)
    ensures forall v :: v in BlockingOf(vs) <==> v in vs && v.severity == Blocking
  {
    if vs != [] {
      BlockingMembers(vs[1..]);
      assert vs == [vs[0]] + vs[1..];
    }
  }

  lemma {:induction false} MinRuleIdIsLeast(vs: seq<PolicyVerdict>)
    requires vs != []
    ensures exists v :: v in vs && v.ruleId == MinRuleId(vs)
    ensures forall v :: v in vs ==> MinRuleId(vs) <= v.ruleId
  {
    if |vs| > 1 {
      MinRuleIdIsLeast(vs[1..]);
      assert vs == [vs[0]] + vs[1..];
    }
    assert vs[0] in vs;
  }

  lemma {:induction false} StrictestTierIsGreatest(vs: seq<PolicyVerdict>)
    ensures StrictestTier(vs).Some? ==> exists v :: v in vs && v.requiresTier == StrictestTier(vs)
    ensures forall v :: v in vs && v.requiresTier.Some? ==>
              StrictestTier(vs).Some? && v.requiresTier.value.Rank() <= StrictestTier(vs).value.Rank()
  {
    if vs != [] {
      StrictestTierIsGreatest(vs[1..]);
      assert vs == [vs[0]] + vs[1..];
      assert vs[0] in vs;
    }
  }

  lemma {:induction false} LatestDeferIsGreatest(vs: seq<PolicyVerdict>)
    ensures LatestDefer(vs).Some? ==> exists v :: v in vs && v.deferUntil == LatestDefer(vs)
    ensures forall v :: v in vs && v.deferUntil.Some? ==>
              LatestDefer(vs).Some? && v.deferUntil.value <= LatestDefer(vs).value
  {
    if vs != [] {
      LatestDeferIsGreatest(vs[1..]);
      assert vs == [vs[0]] + vs[1..];
      assert vs[0] in vs;
    }
  }

  /** `combine_verdicts`: strictest blocking effect wins, ties go to the least rule
      id, nothing blocking fails closed. */
  function Combine(vs: seq<PolicyVerdict>): PolicyDecision {
    var blocking := BlockingOf(vs);
    if blocking == [] then
      PolicyDecision(Deny, None, vs, AdvisoryIds(vs), None, None, true)
    else
      var strictest := MaxStrictness(blocking);
      var winners := WinnersOf(blocking, strictest);
      assert winners != [] by {
        MaxStrictnessAttained(blocking);
        WinnersAreTheMaxima(blocking, strictest);
      }
      PolicyDecision(
        winners[0].effect, Some(MinRuleId(winners)), vs, AdvisoryIds(vs),
        StrictestTier(blocking), LatestDefer(winners), false)
  }

  ghost predicate SameMembers<T(!new)>(a: seq<T>, b: seq<T>) {
    forall x :: x in a <==> x in b
  }

  /** The parts of a decision that must not depend on how the rules were listed. */
  predicate SameRuling(a: PolicyDecision, b: PolicyDecision) {
    && a.effect == b.effect
    && a.decidingRuleId == b.decidingRuleId
    && a.requiresTier == b.requiresTier
    && a.deferUntil == b.deferUntil
    && a.failedClosed == b.failedClosed
  }

  /** What a decision means: DENY when nothing blocks; otherwise the effect of some
      blocking verdict that no blocking verdict exceeds. */
  lemma CombineMeaning(vs: seq<PolicyVerdict>)
    ensures Combine(vs).failedClosed <==> forall v :: v in vs ==> v.severity == Advisory
    ensures Combine(vs).failedClosed ==> Combine(vs).effect == Deny && Combine(vs).decidingRuleId == None
    ensures !Combine(vs).failedClosed ==>
              exists v :: v in vs && v.severity == Blocking
                && v.effect == Combine(vs).effect && Some(v.ruleId) == Combine(vs).decidingRuleId
    ensures !Combine(vs).failedClosed ==>
              forall v :: v in vs && v.severity == Blocking ==>
                && Strictness(v.effect) <= Strictness(Combine(vs).effect)
                && (v.effect == Combine(vs).effect ==> Combine(vs).decidingRuleId.value <= v.ruleId)
  {
    BlockingMembers(vs);
    var blocking := BlockingOf(vs);
    if blocking == [] {
      forall v | v in vs ensures v.severity == Advisory { assert v !in blocking; }
    } else {
      assert blocking[0] in blocking;
      MaxStrictnessAttained(blocking);
      WinnersAreTheMaxima(blocking, MaxStrictness(blocking));
      var winners := WinnersOf(blocking, MaxStrictness(blocking));
      MinRuleIdIsLeast(winners);
      assert winners[0] in winners;
    }
  }

  predicate Blocks(vs: seq<PolicyVerdict>, e: PolicyEffect) {
    exists v :: v in vs && v.severity == Blocking && v.effect == e
  }

  /** The order of the effects, spelled out: any denial denies, then a deferral, then an
      approval; with no blocking verdict at all it is a denial too. */
  lemma EffectsInOrder(vs: seq<PolicyVerdict>)
    ensures var e := Combine(vs).effect;
            && (e == Deny <==> Blocks(vs, Deny) || (forall v :: v in vs ==> v.severity != Blocking))
            && (e == Defer <==> Blocks(vs, Defer) && !Blocks(vs, Deny))
            && (e == AllowWithApproval <==> Blocks(vs, AllowWithApproval) && !Blocks(vs, Defer) && !Blocks(vs, Deny))
            && (e == Allow <==> Blocks(vs, Allow) && !Blocks(vs, AllowWithApproval) && !Blocks(vs, Defer) && !Blocks(vs, Deny))
  {
    hide Combine;
    CombineMeaning(vs);
    var d := Combine(vs);
    forall e | Blocks(vs, e) ensures !d.failedClosed && Strictness(e) <= Strictness(d.effect) {
      var v :| v in vs && v.severity == Blocking && v.effect == e;
    }
    if !d.failedClosed {
      assert Blocks(vs, d.effect);
    }
  }

  predicate AsksFor(vs: seq<PolicyVerdict>, t: Tier) {
    exists v :: v in vs && v.severity == Blocking && v.requiresTier == Some(t)
  }

  /** And the order of the tiers. */
  lemma TiersInOrder(vs: seq<PolicyVerdict>)
    requires !Combine(vs).failedClosed
    ensures Combine(vs).requiresTier ==
              if AsksFor(vs, T3) then Some(T3) else if AsksFor(vs, T2) then Some(T2)
              else if AsksFor(vs, T1) then Some(T1) else if AsksFor(vs, T0) then Some(T0) else None
  {
    hide Combine;
    CombineTier(vs);
    var d := Combine(vs);
    forall t | AsksFor(vs, t) ensures d.requiresTier.Some? && t.Rank() <= d.requiresTier.value.Rank() {
      var v :| v in vs && v.severity == Blocking && v.requiresTier == Some(t);
    }
    if d.requiresTier.Some? {
      var v :| v in vs && v.severity == Blocking && v.requiresTier == d.requiresTier;
      assert AsksFor(vs, d.requiresTier.value);
    }
  }

  /** Nothing heard is dropped from the record, and the advisory rules are named in it. */
  lemma {:induction false} AdvisoryAreNamed(vs: seq<PolicyVerdict>)
    ensures forall id :: id in AdvisoryIds(vs) <==> exists v :: v in vs && v.severity == Advisory && v.ruleId == id
  {
    if vs != [] {
      AdvisoryAreNamed(vs[1..]);
      assert vs == [vs[0]] + vs[1..];
    }
  }

  lemma CombineKeepsTheRecord(vs: seq<PolicyVerdict>)
    ensures Combine(vs).verdicts == vs
    ensures forall id :: id in Combine(vs).advisoryRuleIds <==>
              exists v :: v in vs && v.severity == Advisory && v.ruleId == id
  {
    AdvisoryAreNamed(vs);
  }

  /** The verdict blocks, and with the effect that was decided. */
  predicate Decides(v: PolicyVerdict, d: PolicyDecision) {
    v.severity == Blocking && v.effect == d.effect
  }

  /** The tier is the strictest any blocking verdict asks for. */
  lemma CombineTier(vs: seq<PolicyVerdict>)
    requires !Combine(vs).failedClosed
    ensures var d := Combine(vs);
            && (d.requiresTier.Some? ==> exists v :: v in vs && v.severity == Blocking && v.requiresTier == d.requiresTier)
            && (forall v :: v in vs && v.severity == Blocking && v.requiresTier.Some? ==>
                  d.requiresTier.Some? && v.requiresTier.value.Rank() <= d.requiresTier.value.Rank())
  {
    BlockingMembers(vs);
    StrictestTierIsGreatest(BlockingOf(vs));
    hide BlockingOf, StrictestTier, MaxStrictness, WinnersOf, MinRuleId, LatestDefer, AdvisoryIds;
    if Combine(vs).requiresTier.Some? {
      var v :| v in BlockingOf(vs) && v.requiresTier == StrictestTier(BlockingOf(vs));
      assert v in vs && v.severity == Blocking;
    }
  }

  lemma WinnersDecide(vs: seq<PolicyVerdict>)
    requires !Combine(vs).failedClosed
    ensures forall v :: v in WinnersOf(BlockingOf(vs), MaxStrictness(BlockingOf(vs))) <==> v in vs && Decides(v, Combine(vs))
  {
    var blocking := BlockingOf(vs);
    var s := MaxStrictness(blocking);
    BlockingMembers(vs);
    MaxStrictnessAttained(blocking);
    WinnersAreTheMaxima(blocking, s);
    hide BlockingOf, StrictestTier, MaxStrictness, WinnersOf, MinRuleId, LatestDefer, AdvisoryIds;
    assert WinnersOf(blocking, s)[0] in WinnersOf(blocking, s);
  }

  /** The deferral is the latest among the verdicts that decided: two wait for both. */
  lemma CombineDeferral(vs: seq<PolicyVerdict>)
    requires !Combine(vs).failedClosed
    ensures var d := Combine(vs);
            && (d.deferUntil.Some? ==> exists v :: v in vs && Decides(v, d) && v.deferUntil == d.deferUntil)
            && (forall v :: v in vs && Decides(v, d) && v.deferUntil.Some? ==>
                  d.deferUntil.Some? && v.deferUntil.value <= d.deferUntil.value)
  {
    WinnersDecide(vs);
    var winners := WinnersOf(BlockingOf(vs), MaxStrictness(BlockingOf(vs)));
    LatestDeferIsGreatest(winners);
    hide BlockingOf, StrictestTier, MaxStrictness, WinnersOf, MinRuleId, LatestDefer, AdvisoryIds, Decides;
    if Combine(vs).deferUntil.Some? {
      var v :| v in winners && v.deferUntil == LatestDefer(winners);
      assert v in vs && Decides(v, Combine(vs));
    }
  }

  /** The decision depends only on which blocking verdicts were returned, not on
      their order, on repetitions, or on any advisory verdict. */
  lemma CombineIgnoresOrder(a: seq<PolicyVerdict>, b: seq<PolicyVerdict>)
    requires forall v: PolicyVerdict :: v.severity == Blocking ==> (v in a <==> v in b)
    ensures SameRuling(Combine(a), Combine(b))
  {
    EffectIgnoresOrder(a, b);
    BlockingMembers(a);
    BlockingMembers(b);
    var x, y := BlockingOf(a), BlockingOf(b);
    if x != [] && y != [] {
      TierIgnoresOrder(x, y);
      WinnersIgnoreOrder(x, y);
    }
  }

  lemma EffectIgnoresOrder(a: seq<PolicyVerdict>, b: seq<PolicyVerdict>)
    requires forall v: PolicyVerdict :: v.severity == Blocking ==> (v in a <==> v in b)
    ensures Combine(a).failedClosed == Combine(b).failedClosed
    ensures Combine(a).effect == Combine(b).effect
    ensures Combine(a).decidingRuleId == Combine(b).decidingRuleId
  {
    CombineMeaning(a);
    CombineMeaning(b);
  }

  lemma WinnersIgnoreOrder(x: seq<PolicyVerdict>, y: seq<PolicyVerdict>)
    requires SameMembers(x, y)
    requires x != [] && y != []
    ensures LatestDefer(WinnersOf(x, MaxStrictness(x))) == LatestDefer(WinnersOf(y, MaxStrictness(y)))
  {
    MaxStrictnessAttained(x);
    MaxStrictnessAttained(y);
    assert MaxStrictness(x) == MaxStrictness(y);
    WinnersAreTheMaxima(x, MaxStrictness(x));
    WinnersAreTheMaxima(y, MaxStrictness(y));
    DeferIgnoresOrder(WinnersOf(x, MaxStrictness(x)), WinnersOf(y, MaxStrictness(y)));
  }

  lemma TierIgnoresOrder(a: seq<PolicyVerdict>, b: seq<PolicyVerdict>)
    requires SameMembers(a, b)
    ensures StrictestTier(a) == StrictestTier(b)
  {
    StrictestTierIsGreatest(a);
    StrictestTierIsGreatest(b);
  }

  lemma DeferIgnoresOrder(a: seq<PolicyVerdict>, b: seq<PolicyVerdict>)
    requires SameMembers(a, b)
    ensures LatestDefer(a) == LatestDefer(b)
  {
    LatestDeferIsGreatest(a);
    LatestDeferIsGreatest(b);
  }

  /** Further verdicts can only keep or tighten a decision that did not fail closed. */
  lemma CombineIsMonotone(a: seq<PolicyVerdict>, b: seq<PolicyVerdict>)
    requires forall v :: v in a ==> v in b
    requires !Combine(a).failedClosed
    ensures !Combine(b).failedClosed
    ensures Strictness(Combine(a).effect) <= Strictness(Combine(b).effect)
  {
    CombineMeaning(a);
    CombineMeaning(b);
  }
}
