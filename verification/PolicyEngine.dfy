/**
 The policy evaluator (reclaim/policy/engine.py): rules plus facts to one decision.
 It has no per-verb branch; the verb only selects which categories must be covered.
 */
module PolicyEngine {
  import opened Wrappers
  import opened Vocabulary
  import opened Actions
  import opened PolicyFormat

  datatype PolicyError = MissingFact(fact: FactKey) | Unorderable | BadDeferTime

  // ------------------------------------------------------------ predicates

  /** The numeric reading of two values an order exists on. */
  function Ordinal(v: FactValue): Option<int> {
    match v
    case MoneyValue(x) => Some(x)
    case IntValue(x) => Some(x)
    case TimeValue(x) => Some(x)
    case ProbValue(x) => Some(x)
    case _ => None
  }

  predicate SameKind(a: FactValue, b: FactValue) {
    || (a.MoneyValue? && b.MoneyValue?) || (a.IntValue? && b.IntValue?)
    || (a.TimeValue? && b.TimeValue?) || (a.ProbValue? && b.ProbValue?)
  }

  function Compare(op: Operator, actual: FactValue, literal: Literal): Result<bool, PolicyError> {
    match op
    case Eq => Success(literal == One(actual))
    case Ne => Success(literal != One(actual))
    case In => if literal.Many? then Success(actual in literal.vs) else Failure(Unorderable)
    case NotIn => if literal.Many? then Success(actual !in literal.vs) else Failure(Unorderable)
    case _ =>
      if !literal.One? || !SameKind(actual, literal.v) then Failure(Unorderable)
      else
        var x, y := Ordinal(actual).value, Ordinal(literal.v).value;
        Success(match op case Gt => x > y case Gte => x >= y case Lt => x < y case _ => x <= y)
  }

  /** Whether the predicate holds. Children are visited in order and the walk stops
      at the first that decides, so a missing fact behind a decided child is not seen. */
  function Matches(p: Predicate, facts: Facts): Result<bool, PolicyError>
    decreases p, 0
  {
    match p
    case FactTest(k, op, literal) =>
      if k !in facts then Failure(MissingFact(k)) else Compare(op, facts[k], literal)
    case AllOf(ps) => MatchesUntil(ps, facts, false)
    case AnyOf(ps) => MatchesUntil(ps, facts, true)
    case Not(q) =>
      var b :- Matches(q, facts);
      Success(!b)
  }

  /** Walk the children until one answers `decisive`; the empty rest answers its negation. */
  function MatchesUntil(ps: seq<Predicate>, facts: Facts, decisive: bool): Result<bool, PolicyError>
    decreases ps, 1
  {
    if ps == [] then Success(!decisive)
    else
      var b :- Matches(ps[0], facts);
      if b == decisive then Success(decisive) else MatchesUntil(ps[1..], facts, decisive)
  }

  /** The eight operators. Membership takes a list; order exists only between two amounts,
      two counts or durations, two instants or two probabilities, and anything else raises. */
  lemma CompareMeaning(op: Operator, actual: FactValue, literal: Literal)
    ensures op == Eq ==> Compare(op, actual, literal) == Success(literal.One? && literal.v == actual)
    ensures op == Ne ==> Compare(op, actual, literal) == Success(literal.Many? || literal.v != actual)
    ensures op == In || op == NotIn ==>
              if literal.One? then Compare(op, actual, literal).Failure?
              else Compare(op, actual, literal) == Success((actual in literal.vs) == (op == In))
    ensures op !in {Eq, Ne, In, NotIn} ==>
              match literal {
                case One(MoneyValue(y)) => if actual.MoneyValue? then Compare(op, actual, literal) == Success(Ordered(op, actual.paise, y)) else Compare(op, actual, literal).Failure?
                case One(IntValue(y)) => if actual.IntValue? then Compare(op, actual, literal) == Success(Ordered(op, actual.n, y)) else Compare(op, actual, literal).Failure?
                case One(TimeValue(y)) => if actual.TimeValue? then Compare(op, actual, literal) == Success(Ordered(op, actual.at, y)) else Compare(op, actual, literal).Failure?
                case One(ProbValue(y)) => if actual.ProbValue? then Compare(op, actual, literal) == Success(Ordered(op, actual.p, y)) else Compare(op, actual, literal).Failure?
                case _ => Compare(op, actual, literal).Failure?
              }
  {
  }

  predicate Ordered(op: Operator, x: int, y: int) {
    (op == Gt ==> x > y) && (op == Gte ==> !(x < y)) && (op == Lt ==> y > x) && (op == Lte ==> !(y < x))
  }

  /** Child `k` is reached: every child before it answered, and not decisively. */
  predicate Reached(ps: seq<Predicate>, facts: Facts, decisive: bool, k: nat)
    requires k <= |ps|
  {
    forall i :: 0 <= i < k ==> Matches(ps[i], facts) == Success(!decisive)
  }

  /** The walk over children answers decisively at the first child that does, raises at the
      first that raises, and answers the other way only after hearing them all. */
  lemma {:induction false} WalkMeaning(ps: seq<Predicate>, facts: Facts, decisive: bool)
    ensures MatchesUntil(ps, facts, decisive) == Success(!decisive) <==> Reached(ps, facts, decisive, |ps|)
    ensures MatchesUntil(ps, facts, decisive) == Success(decisive) <==>
              exists k :: 0 <= k < |ps| && Reached(ps, facts, decisive, k) && Matches(ps[k], facts) == Success(decisive)
    ensures forall e :: MatchesUntil(ps, facts, decisive) == Failure(e) <==>
              exists k :: 0 <= k < |ps| && Reached(ps, facts, decisive, k) && Matches(ps[k], facts) == Failure(e)
  {
    if ps != [] {
      WalkMeaning(ps[1..], facts, decisive);
      if Matches(ps[0], facts) == Success(!decisive) {
        forall k | 0 <= k < |ps| ensures Reached(ps, facts, decisive, k + 1) <==> Reached(ps[1..], facts, decisive, k) {
          OneChildOn(ps, facts, decisive, k);
        }
        assert forall k :: 0 < k < |ps| ==> ps[k] == ps[1..][k - 1];
      }
    }
  }

  lemma OneChildOn(ps: seq<Predicate>, facts: Facts, decisive: bool, k: nat)
    requires k < |ps| && Matches(ps[0], facts) == Success(!decisive)
    ensures Reached(ps, facts, decisive, k + 1) <==> Reached(ps[1..], facts, decisive, k)
  {
    assert forall i :: 0 < i <= k ==> ps[i] == ps[1..][i - 1];
  }

  /** So a conjunction holds when every child does, a disjunction when some child does after
      others that do not, and a negation flips. */
  lemma ConnectivesMean(ps: seq<Predicate>, q: Predicate, facts: Facts)
    ensures Matches(AllOf(ps), facts) == Success(true) <==> forall i :: 0 <= i < |ps| ==> Matches(ps[i], facts) == Success(true)
    ensures Matches(AnyOf(ps), facts) == Success(false) <==> forall i :: 0 <= i < |ps| ==> Matches(ps[i], facts) == Success(false)
    ensures Matches(AllOf(ps), facts) == Success(false) <==>
              exists k :: 0 <= k < |ps| && Reached(ps, facts, false, k) && Matches(ps[k], facts) == Success(false)
    ensures Matches(AnyOf(ps), facts) == Success(true) <==>
              exists k :: 0 <= k < |ps| && Reached(ps, facts, true, k) && Matches(ps[k], facts) == Success(true)
    ensures Matches(Not(q), facts) == Success(true) <==> Matches(q, facts) == Success(false)
    ensures Matches(Not(q), facts) == Success(false) <==> Matches(q, facts) == Success(true)
  {
    WalkMeaning(ps, facts, true);
    WalkMeaning(ps, facts, false);
  }

  /** A well-formed predicate over typed facts that are all present always has an answer. */
  lemma {:induction false} MatchesIsTotal(p: Predicate, facts: Facts)
    requires PredicateWellFormed(p) && WellTyped(facts)
    requires FactsReferenced(p) <= facts.Keys
    ensures Matches(p, facts).Success?
    decreases p, 0
  {
    match p
    case FactTest(k, op, literal) => assert k in facts && ValueSuits(k, facts[k]);
    case AllOf(ps) => MatchesUntilIsTotal(ps, facts, false);
    case AnyOf(ps) => MatchesUntilIsTotal(ps, facts, true);
    case Not(q) => MatchesIsTotal(q, facts);
  }

  lemma {:induction false} MatchesUntilIsTotal(ps: seq<Predicate>, facts: Facts, decisive: bool)
    requires AllWellFormed(ps) && WellTyped(facts)
    requires FactsReferencedByAny(ps) <= facts.Keys
    ensures MatchesUntil(ps, facts, decisive).Success?
    decreases ps, 1
  {
    if ps != [] {
      MatchesIsTotal(ps[0], facts);
      MatchesUntilIsTotal(ps[1..], facts, decisive);
    }
  }

  // ------------------------------------------------------------ one rule

  /** The verb under evaluation, with the segment and channel rules may scope on. */
  datatype Request = Request(actionType: ActionType, segment: Segment, channel: Option<Channel>)

  predicate InScope(r: PolicyRule, q: Request) {
    && r.enabled
    && r.category in CategoriesOf(q.actionType)
    && (r.appliesToSegments == [] || q.segment in r.appliesToSegments)
    && (r.appliesToChannels == [] || (q.channel.Some? && q.channel.value in r.appliesToChannels))
  }

  function Needed(r: PolicyRule): set<FactKey> {
    FactsReferenced(r.when) + (if r.deferUntilFact.Some? then {r.deferUntilFact.value} else {})
  }

  datatype RuleOutcome = Unevaluable | Silent | Speaks(verdict: PolicyVerdict) | Broken(error: PolicyError)

  /** What one applicable rule contributes to an evaluation. */
  function Consult(r: PolicyRule, facts: Facts): RuleOutcome {
    if !(Needed(r) <= facts.Keys) then Unevaluable
    else
      match Matches(r.when, facts)
      case Failure(e) => Broken(e)
      case Success(false) => Silent
      case Success(true) =>
        if r.effect == Defer && r.deferUntilFact.Some? then
          match facts[r.deferUntilFact.value]
          case TimeValue(at) => Speaks(PolicyVerdict(r.ruleId, r.category, r.effect, r.severity, r.requiresTier, Some(at)))
          case _ => Broken(BadDeferTime)
        else
          Speaks(PolicyVerdict(r.ruleId, r.category, r.effect, r.severity, r.requiresTier, None))
  }

  predicate HasDeferral(r: PolicyRule) {
    r.effect == Defer && r.deferUntilFact.Some?
  }

  /** When a rule is heard: every fact its condition or its deferral names is supplied, the
      condition is true, and a deferral names an instant. The verdict is the rule's own. */
  lemma ConsultMeaning(r: PolicyRule, facts: Facts)
    ensures Consult(r, facts).Unevaluable? <==>
              || (exists k :: k in FactsReferenced(r.when) && k !in facts)
              || (r.deferUntilFact.Some? && r.deferUntilFact.value !in facts)
    ensures Consult(r, facts).Speaks? ==>
              && Matches(r.when, facts) == Success(true)
              && var v := Consult(r, facts).verdict;
                 && v.ruleId == r.ruleId && v.category == r.category && v.effect == r.effect
                 && v.severity == r.severity && v.requiresTier == r.requiresTier
                 && (if HasDeferral(r) then facts[r.deferUntilFact.value] == TimeValue(v.deferUntil.value) && v.deferUntil.Some?
                     else v.deferUntil.None?)
    ensures !Consult(r, facts).Unevaluable? ==>
              && (Consult(r, facts).Silent? <==> Matches(r.when, facts) == Success(false))
              && (Consult(r, facts).Broken? <==>
                    || Matches(r.when, facts).Failure?
                    || (Matches(r.when, facts) == Success(true) && HasDeferral(r) && !facts[r.deferUntilFact.value].TimeValue?))
  {
    if !(Needed(r) <= facts.Keys) {
      var k :| k in Needed(r) && k !in facts;
    }
  }

  // ------------------------------------------------------------ all rules

  function Selected(rules: seq<PolicyRule>, q: Request): seq<PolicyRule> {
    if rules == [] then []
    else
      var last := rules[|rules| - 1];
      Selected(rules[..|rules| - 1], q)
      + (if InScope(last, q) then [last] else [])
  }

  function VerdictsOf(rules: seq<PolicyRule>, facts: Facts): seq<PolicyVerdict> {
    if rules == [] then []
    else
      VerdictsOf(rules[..|rules| - 1], facts)
      + match Consult(rules[|rules| - 1], facts) { case Speaks(v) => [v] case _ => [] }
  }

  function UnevaluableIds(rules: seq<PolicyRule>, facts: Facts): seq<RuleId> {
    if rules == [] then []
    else
      UnevaluableIds(rules[..|rules| - 1], facts)
      + (if Consult(rules[|rules| - 1], facts).Unevaluable? then [rules[|rules| - 1].ruleId] else [])
  }

  function FirstBreak(rules: seq<PolicyRule>, facts: Facts): Option<PolicyError> {
    if rules == [] then None
    else
      var earlier := FirstBreak(rules[..|rules| - 1], facts);
      if earlier.Some? then earlier
      else match Consult(rules[|rules| - 1], facts) { case Broken(e) => Some(e) case _ => None }
  }

  /** Declared categories that got no blocking verdict. */
  function SilentCategories(required: set<PolicyCategory>, vs: seq<PolicyVerdict>): set<PolicyCategory> {
    set c | c in required && forall v :: v in vs ==> !(v.severity == Blocking && v.category == c)
  }

  function FailClosed(d: PolicyDecision): PolicyDecision {
    PolicyDecision(Deny, None, d.verdicts, d.advisoryRuleIds, d.requiresTier, None, true)
  }

  datatype Evaluation = Evaluation(
    decision: PolicyDecision,
    silentCategories: set<PolicyCategory>,
    unevaluableRuleIds: seq<RuleId>)

  function Evaluate(rules: seq<PolicyRule>, q: Request,
                    facts: Facts): Result<Evaluation, PolicyError>
  {
    var selected := Selected(rules, q);
    match FirstBreak(selected, facts)
    case Some(e) => Failure(e)
    case None =>
      var vs := VerdictsOf(selected, facts);
      var silent := SilentCategories(CategoriesOf(q.actionType), vs);
      var decision := if silent != {} then FailClosed(Combine(vs)) else Combine(vs);
      Success(Evaluation(decision, silent, UnevaluableIds(selected, facts)))
  }

  // ------------------------------------------------------------ the engine's loops

  method ApplicableRules(rules: seq<PolicyRule>, q: Request)
    returns (selected: seq<PolicyRule>)
    ensures selected == Selected(rules, q)
    ensures forall r :: r in selected <==> r in rules && InScope(r, q)
  {
    selected := [];
    var i := 0;
    while i < |rules|
      invariant 0 <= i <= |rules|
      invariant selected == Selected(rules[..i], q)
    {
      var rule := rules[i];
      assert rules[..i + 1][..i] == rules[..i];
      i := i + 1;
      if !rule.enabled || rule.category !in CategoriesOf(q.actionType) {
        continue;
      }
      if rule.appliesToSegments != [] && q.segment !in rule.appliesToSegments {
        continue;
      }
      if rule.appliesToChannels != [] && (q.channel.None? || q.channel.value !in rule.appliesToChannels) {
        continue;
      }
      selected := selected + [rule];
    }
    assert rules[..|rules|] == rules;
    SelectedMembers(rules, q);
  }

  method EvaluateAction(rules: seq<PolicyRule>, q: Request, facts: Facts)
    returns (r: Result<Evaluation, PolicyError>)
    ensures r == Evaluate(rules, q, facts)
  {
    var applicable := ApplicableRules(rules, q);
    var verdicts: seq<PolicyVerdict> := [];
    var unevaluable: seq<RuleId> := [];
    var i := 0;
    while i < |applicable|
      invariant 0 <= i <= |applicable|
      invariant verdicts == VerdictsOf(applicable[..i], facts)
      invariant unevaluable == UnevaluableIds(applicable[..i], facts)
      invariant FirstBreak(applicable[..i], facts).None?
    {
      ConsultingOneMore(applicable, i, facts);
      match Consult(applicable[i], facts) {
        case Unevaluable => unevaluable := unevaluable + [applicable[i].ruleId];
        case Silent =>
        case Speaks(v) => verdicts := verdicts + [v];
        case Broken(e) =>
          FirstBreakStands(applicable, i + 1, facts);
          return Failure(e);
      }
      i := i + 1;
    }
    assert applicable[..|applicable|] == applicable;
    var silent := SilentCategories(CategoriesOf(q.actionType), verdicts);
    var decision := Combine(verdicts);
    if silent != {} {
      decision := FailClosed(decision);
    }
    return Success(Evaluation(decision, silent, unevaluable));
  }

  lemma ConsultingOneMore(rules: seq<PolicyRule>, i: nat, facts: Facts)
    requires i < |rules|
    ensures VerdictsOf(rules[..i + 1], facts) == VerdictsOf(rules[..i], facts)
              + match Consult(rules[i], facts) { case Speaks(v) => [v] case _ => [] }
    ensures UnevaluableIds(rules[..i + 1], facts) == UnevaluableIds(rules[..i], facts)
              + (if Consult(rules[i], facts).Unevaluable? then [rules[i].ruleId] else [])
    ensures FirstBreak(rules[..i], facts).None? ==>
              FirstBreak(rules[..i + 1], facts)
              == match Consult(rules[i], facts) { case Broken(e) => Some(e) case _ => None }
  {
    assert rules[..i + 1][..i] == rules[..i];
  }

  lemma {:induction false} FirstBreakStands(rules: seq<PolicyRule>, n: nat, facts: Facts)
    requires n <= |rules|
    requires FirstBreak(rules[..n], facts).Some?
    ensures FirstBreak(rules, facts) == FirstBreak(rules[..n], facts)
    decreases |rules|
  {
    if n < |rules| {
      assert rules[..|rules| - 1][..n] == rules[..n];
      FirstBreakStands(rules[..|rules| - 1], n, facts);
    } else {
      assert rules[..n] == rules;
    }
  }

  // ------------------------------------------------------------ membership

  lemma {:induction false} SelectedMembers(rules: seq<PolicyRule>, q: Request)
    ensures forall r :: r in Selected(rules, q) <==> r in rules && InScope(r, q)
  {
    if rules != [] {
      SelectedMembers(rules[..|rules| - 1], q);
      assert rules == rules[..|rules| - 1] + [rules[|rules| - 1]];
    }
  }

  lemma {:induction false} VerdictMembers(rules: seq<PolicyRule>, facts: Facts)
    ensures forall v :: v in VerdictsOf(rules, facts) <==> exists r :: r in rules && Consult(r, facts) == Speaks(v)
  {
    if rules != [] {
      VerdictMembers(rules[..|rules| - 1], facts);
      assert rules == rules[..|rules| - 1] + [rules[|rules| - 1]];
      forall v | v in VerdictsOf(rules, facts)
        ensures exists r :: r in rules && Consult(r, facts) == Speaks(v)
      {
        if v in VerdictsOf(rules[..|rules| - 1], facts) {
          var r :| r in rules[..|rules| - 1] && Consult(r, facts) == Speaks(v);
          assert r in rules;
        }
      }
    }
  }

  lemma {:induction false} BreaksExactlyWhenSomeRuleBreaks(rules: seq<PolicyRule>, facts: Facts)
    ensures FirstBreak(rules, facts).Some? <==> exists r :: r in rules && Consult(r, facts).Broken?
  {
    if rules != [] {
      BreaksExactlyWhenSomeRuleBreaks(rules[..|rules| - 1], facts);
      assert rules == rules[..|rules| - 1] + [rules[|rules| - 1]];
    }
  }

  lemma {:induction false} UnevaluableMembers(rules: seq<PolicyRule>, facts: Facts)
    ensures UnevaluableIds(rules, facts) == [] <==> forall r :: r in rules ==> !Consult(r, facts).Unevaluable?
  {
    if rules != [] {
      UnevaluableMembers(rules[..|rules| - 1], facts);
      assert rules == rules[..|rules| - 1] + [rules[|rules| - 1]];
    }
  }

  /** Some applicable rule returns the verdict `v`. */
  ghost predicate Spoken(v: PolicyVerdict, rules: seq<PolicyRule>, q: Request, facts: Facts) {
    exists r :: r in rules && InScope(r, q) && Consult(r, facts) == Speaks(v)
  }

  ghost predicate Breaks(rules: seq<PolicyRule>, q: Request, facts: Facts) {
    exists r :: r in rules && InScope(r, q) && Consult(r, facts).Broken?
  }

  /** The verdicts of an evaluation, read off the rules without their order. */
  lemma VerdictsOfSelected(rules: seq<PolicyRule>, q: Request, facts: Facts)
    ensures forall v :: v in VerdictsOf(Selected(rules, q), facts) <==> Spoken(v, rules, q, facts)
    ensures FirstBreak(Selected(rules, q), facts).Some? <==> Breaks(rules, q, facts)
  {
    var selected := Selected(rules, q);
    SelectedMembers(rules, q);
    VerdictMembers(selected, facts);
    BreaksExactlyWhenSomeRuleBreaks(selected, facts);
    forall v | v in VerdictsOf(selected, facts) ensures Spoken(v, rules, q, facts) {
      var r :| r in selected && Consult(r, facts) == Speaks(v);
      assert r in rules && InScope(r, q);
    }
    forall v | Spoken(v, rules, q, facts) ensures v in VerdictsOf(selected, facts) {
      var r :| r in rules && InScope(r, q) && Consult(r, facts) == Speaks(v);
      assert r in selected;
    }
  }

  lemma SpokenGrows(v: PolicyVerdict, a: seq<PolicyRule>, b: seq<PolicyRule>, q: Request, facts: Facts)
    requires Spoken(v, a, q, facts)
    requires forall r: PolicyRule :: r in a && r.severity == v.severity ==> r in b
    ensures Spoken(v, b, q, facts)
  {
    var r :| r in a && InScope(r, q) && Consult(r, facts) == Speaks(v);
    assert r.severity == v.severity;
    assert r in b;
  }

  // ------------------------------------------------------------ main results

  /** Valid rules over typed facts never make the engine raise. */
  lemma EvaluateIsTotal(rules: seq<PolicyRule>, q: Request, facts: Facts)
    requires forall r :: r in rules ==> r.Valid()
    requires WellTyped(facts)
    ensures Evaluate(rules, q, facts).Success?
  {
    VerdictsOfSelected(rules, q, facts);
    forall r | r in rules ensures !Consult(r, facts).Broken? {
      if Needed(r) <= facts.Keys {
        MatchesIsTotal(r.when, facts);
        if r.deferUntilFact.Some? {
          assert r.deferUntilFact.value in Needed(r);
          assert ValueSuits(r.deferUntilFact.value, facts[r.deferUntilFact.value]);
        }
      }
    }
  }

  /** The ruling depends only on which blocking rules are present: not on how the
      rules are listed, and not on any advisory rule, which neither blocks nor covers
      a category. */
  lemma RulingDependsOnBlockingRulesOnly(a: seq<PolicyRule>, b: seq<PolicyRule>, q: Request, facts: Facts)
    requires forall r: PolicyRule :: r.severity == Blocking ==> (r in a <==> r in b)
    requires Evaluate(a, q, facts).Success? && Evaluate(b, q, facts).Success?
    ensures SameRuling(Evaluate(a, q, facts).value.decision, Evaluate(b, q, facts).value.decision)
    ensures Evaluate(a, q, facts).value.silentCategories == Evaluate(b, q, facts).value.silentCategories
  {
    VerdictsOfSelected(a, q, facts);
    VerdictsOfSelected(b, q, facts);
    var va, vb := VerdictsOf(Selected(a, q), facts), VerdictsOf(Selected(b, q), facts);
    forall v: PolicyVerdict | v.severity == Blocking ensures v in va <==> v in vb {
      if Spoken(v, a, q, facts) { SpokenGrows(v, a, b, q, facts); }
      if Spoken(v, b, q, facts) { SpokenGrows(v, b, a, q, facts); }
    }
    SilenceDependsOnBlockingVerdictsOnly(CategoriesOf(q.actionType), va, vb);
    CombineIgnoresOrder(va, vb);
  }

  lemma SilenceDependsOnBlockingVerdictsOnly(cs: set<PolicyCategory>, a: seq<PolicyVerdict>, b: seq<PolicyVerdict>)
    requires forall v: PolicyVerdict :: v.severity == Blocking ==> (v in a <==> v in b)
    ensures SilentCategories(cs, a) == SilentCategories(cs, b)
  {
  }

  /** Reordering the rules cannot even change whether the engine raises. */
  lemma EvaluateIgnoresRuleOrder(a: seq<PolicyRule>, b: seq<PolicyRule>, q: Request, facts: Facts)
    requires SameMembers(a, b)
    ensures Evaluate(a, q, facts).Success? <==> Evaluate(b, q, facts).Success?
    ensures Evaluate(a, q, facts).Success? ==>
              && SameRuling(Evaluate(a, q, facts).value.decision, Evaluate(b, q, facts).value.decision)
              && Evaluate(a, q, facts).value.silentCategories == Evaluate(b, q, facts).value.silentCategories
  {
    VerdictsOfSelected(a, q, facts);
    VerdictsOfSelected(b, q, facts);
    assert Breaks(a, q, facts) <==> Breaks(b, q, facts);
    if Evaluate(a, q, facts).Success? {
      RulingDependsOnBlockingRulesOnly(a, b, q, facts);
    }
  }

  /** When no declared category is silent, further rules keep or tighten the effect. */
  lemma AddingRulesOnlyTightens(a: seq<PolicyRule>, b: seq<PolicyRule>, q: Request, facts: Facts)
    requires forall r :: r in a ==> r in b
    requires Evaluate(a, q, facts).Success? && Evaluate(b, q, facts).Success?
    requires Evaluate(a, q, facts).value.silentCategories == {}
    ensures Evaluate(b, q, facts).value.silentCategories == {}
    ensures Strictness(Evaluate(a, q, facts).value.decision.effect)
         <= Strictness(Evaluate(b, q, facts).value.decision.effect)
  {
    VerdictsOfSelected(a, q, facts);
    VerdictsOfSelected(b, q, facts);
    var va, vb := VerdictsOf(Selected(a, q), facts), VerdictsOf(Selected(b, q), facts);
    forall v | v in va ensures v in vb {
      SpokenGrows(v, a, b, q, facts);
    }
    var cs := CategoriesOf(q.actionType);
    CoverageGrows(cs, va, vb);
    assert Integrity in cs;
    CoveredDoesNotFailClosed(cs, va, Integrity);
    CombineIsMonotone(va, vb);
  }

  lemma CoverageGrows(cs: set<PolicyCategory>, a: seq<PolicyVerdict>, b: seq<PolicyVerdict>)
    requires forall v :: v in a ==> v in b
    ensures SilentCategories(cs, b) <= SilentCategories(cs, a)
  {
  }

  lemma CoveredDoesNotFailClosed(cs: set<PolicyCategory>, vs: seq<PolicyVerdict>, c: PolicyCategory)
    requires c in cs && c !in SilentCategories(cs, vs)
    ensures !Combine(vs).failedClosed
  {
    CombineMeaning(vs);
  }

  /** Fail closed: an action whose declared category nobody spoke for is denied. */
  lemma SilenceDenies(rules: seq<PolicyRule>, q: Request, facts: Facts, c: PolicyCategory)
    requires Evaluate(rules, q, facts).Success?
    requires c in CategoriesOf(q.actionType)
    requires forall v :: Spoken(v, rules, q, facts) ==> !(v.severity == Blocking && v.category == c)
    ensures var d := Evaluate(rules, q, facts).value.decision;
            d.effect == Deny && d.failedClosed && d.decidingRuleId.None? && d.deferUntil.None?
    ensures c in Evaluate(rules, q, facts).value.silentCategories
  {
    VerdictsOfSelected(rules, q, facts);
    assert c in SilentCategories(CategoriesOf(q.actionType), VerdictsOf(Selected(rules, q), facts));
  }

  /** Every declared category covered and every rule evaluable: the decision is the
      plain combination of the verdicts. */
  lemma FullyCovered(rules: seq<PolicyRule>, q: Request, facts: Facts)
    requires FirstBreak(Selected(rules, q), facts).None?
    requires UnevaluableIds(Selected(rules, q), facts) == []
    requires forall c :: c in CategoriesOf(q.actionType) ==> Covers(VerdictsOf(Selected(rules, q), facts), c)
    ensures Evaluate(rules, q, facts)
         == Success(Evaluation(Combine(VerdictsOf(Selected(rules, q), facts)), {}, []))
    ensures !Combine(VerdictsOf(Selected(rules, q), facts)).failedClosed
  {
    AllCovered(CategoriesOf(q.actionType), VerdictsOf(Selected(rules, q), facts));
  }

  lemma NothingUnevaluable(rules: seq<PolicyRule>, q: Request, facts: Facts)
    requires forall r :: r in rules && InScope(r, q) ==> !Consult(r, facts).Unevaluable?
    ensures UnevaluableIds(Selected(rules, q), facts) == []
  {
    SelectedMembers(rules, q);
    UnevaluableMembers(Selected(rules, q), facts);
  }

  ghost predicate Covers(vs: seq<PolicyVerdict>, c: PolicyCategory) {
    exists v :: v in vs && v.severity == Blocking && v.category == c
  }

  lemma AllCovered(cs: set<PolicyCategory>, vs: seq<PolicyVerdict>)
    requires cs != {}
    requires forall c :: c in cs ==> Covers(vs, c)
    ensures SilentCategories(cs, vs) == {}
    ensures !Combine(vs).failedClosed
  {
    var c :| c in cs;
    assert Covers(vs, c);
    CombineMeaning(vs);
  }
}
