/**
 The headline estimator (reclaim/contracts/metrics.py) with every quantisation it makes
 (reclaim/contracts/money.py, units.py), over exact numbers.
 */
module Metrics {
  import opened Wrappers
  import opened Vocabulary
  import opened Cases

  // ------------------------------------------------------------ rounding

  /** Half-up: to the nearest integer, ties away from zero. */
  function Round(x: real): int {
    if x >= 0.0 then (x + 0.5).Floor else -(-x + 0.5).Floor
  }

  const RATIO_UNIT := 1_000_000.0

  /** What one quantised ratio, and the difference of two, can be off by. */
  const RATIO_ERROR := 0.000_000_5
  const DELTA_ERROR := 0.000_001

  /** Six decimal places. */
  function Ratio(x: real): real {
    Round(x * RATIO_UNIT) as real / RATIO_UNIT
  }

  /** Money times a decimal, back to whole paise. */
  function Times(amount: Paise, factor: real): Paise {
    Round(amount as real * factor)
  }

  predicate Within(x: real, y: real, e: real) {
    -e <= x - y <= e
  }

  /** The nearest integer, and of the two at a tie the one further from zero. */
  lemma RoundIsNearest(x: real)
    ensures Within(Round(x) as real, x, 0.5)
    ensures Round(x) as real - x == -0.5 ==> x < 0.0
    ensures Round(x) as real - x == 0.5 ==> x >= 0.0
    ensures Round(-x) == -Round(x)
  {
  }

  lemma RatioIsClose(x: real)
    ensures Within(Ratio(x), x, RATIO_ERROR)
  {
    var scaled := x * RATIO_UNIT;
    RoundIsNearest(scaled);
    var n := Round(scaled) as real;
    assert Ratio(x) * RATIO_UNIT == n;
    assert (Ratio(x) - x) * RATIO_UNIT == n - scaled;
  }

  /** Six decimal places: a whole number of millionths, the nearest one. */
  lemma RatioIsMillionths(x: real)
    ensures Ratio(x) * 1_000_000.0 == Round(x * 1_000_000.0) as real
  {
  }

  // ------------------------------------------------------------ inputs

  datatype ArmOutcome = ArmOutcome(
    arm: Arm, stratum: StratumKey, totalAtRisk: Paise, grossRecovered: Paise, costToCollect: Paise)
  {
    /** Deliberately not clamped at zero. */
    function NetRecovered(): Paise {
      grossRecovered - costToCollect
    }
  }

  /** One entry of the per-stratum mapping; the control side may be missing. */
  datatype Entry = Entry(stratum: StratumKey, treatment: ArmOutcome, control: Option<ArmOutcome>)

  /** The declared at-risk money of each stratum. */
  type StratumWeights = seq<(StratumKey, Paise)>

  predicate DistinctStrata(entries: seq<Entry>) {
    forall i, j :: 0 <= i < j < |entries| ==> entries[i].stratum != entries[j].stratum
  }

  predicate DistinctWeights(ws: StratumWeights) {
    forall i, j :: 0 <= i < j < |ws| ==> ws[i].0 != ws[j].0
  }

  function MoneySum(ws: StratumWeights): Paise {
    if ws == [] then 0 else MoneySum(ws[..|ws| - 1]) + ws[|ws| - 1].1
  }

  function WeightOf(ws: StratumWeights, s: StratumKey): Option<Paise> {
    if ws == [] then None
    else if ws[|ws| - 1].0 == s then Some(ws[|ws| - 1].1)
    else WeightOf(ws[..|ws| - 1], s)
  }

  datatype MetricError =
    | NoStrata
    | ZeroTotal
    | PresentInOneArmOnly(stratum: StratumKey)
    | FiledUnderAnotherStratum(stratum: StratumKey)
    | WeightNotDeclared(stratum: StratumKey)
    | ArmComparedWithItself(arm: Arm)
    | NoMoneyAtRisk(stratum: StratumKey)
    | MixedArmPairs

  /** Why an entry cannot contribute, in the order the program checks. */
  function ProblemOf(e: Entry, ws: StratumWeights): Option<MetricError> {
    if e.control.None? then Some(PresentInOneArmOnly(e.stratum))
    else if e.treatment.stratum != e.stratum || e.control.value.stratum != e.stratum
    then Some(FiledUnderAnotherStratum(e.stratum))
    else if WeightOf(ws, e.stratum).None? then Some(WeightNotDeclared(e.stratum))
    else if e.treatment.arm == e.control.value.arm then Some(ArmComparedWithItself(e.treatment.arm))
    else if e.treatment.totalAtRisk == 0 || e.control.value.totalAtRisk == 0 then Some(NoMoneyAtRisk(e.stratum))
    else None
  }

  function FirstProblem(entries: seq<Entry>, ws: StratumWeights): Option<MetricError> {
    if entries == [] then None
    else
      var earlier := FirstProblem(entries[..|entries| - 1], ws);
      if earlier.Some? then earlier else ProblemOf(entries[|entries| - 1], ws)
  }

  predicate Usable(e: Entry, ws: StratumWeights) {
    ProblemOf(e, ws).None?
  }

  predicate AllUsable(entries: seq<Entry>, ws: StratumWeights) {
    forall i :: 0 <= i < |entries| ==> Usable(entries[i], ws)
  }

  // ------------------------------------------------------------ exact and reported

  function ExactRate(o: ArmOutcome): real
    requires o.totalAtRisk != 0
  {
    o.NetRecovered() as real / o.totalAtRisk as real
  }

  /** The rate as reported: six decimal places. */
  function NetRecoveredPerRupee(o: ArmOutcome): Option<real> {
    if o.totalAtRisk == 0 then None else Some(Ratio(ExactRate(o)))
  }

  function ExactDelta(e: Entry): real
    requires e.control.Some? && e.treatment.totalAtRisk != 0 && e.control.value.totalAtRisk != 0
  {
    ExactRate(e.treatment) - ExactRate(e.control.value)
  }

  function Delta(e: Entry): real
    requires e.control.Some? && e.treatment.totalAtRisk != 0 && e.control.value.totalAtRisk != 0
  {
    NetRecoveredPerRupee(e.treatment).value - NetRecoveredPerRupee(e.control.value).value
  }

  function Share(e: Entry, ws: StratumWeights, total: Paise): real
    requires WeightOf(ws, e.stratum).Some? && total != 0
  {
    WeightOf(ws, e.stratum).value as real / total as real
  }

  /** The weighted sum the loop accumulates. */
  function Weighted(entries: seq<Entry>, ws: StratumWeights, total: Paise): real
    requires AllUsable(entries, ws) && total != 0
  {
    if entries == [] then 0.0
    else
      var e := entries[|entries| - 1];
      assert Usable(e, ws);
      Weighted(entries[..|entries| - 1], ws, total) + Delta(e) * Share(e, ws, total)
  }

  /** The money each stratum would have gained at the exact rates, summed. */
  function ExactPoint(entries: seq<Entry>, ws: StratumWeights): real
    requires AllUsable(entries, ws)
  {
    if entries == [] then 0.0
    else
      var e := entries[|entries| - 1];
      assert Usable(e, ws);
      ExactPoint(entries[..|entries| - 1], ws) + ExactDelta(e) * WeightOf(ws, e.stratum).value as real
  }

  function TreatmentArms(entries: seq<Entry>): set<Arm> {
    if entries == [] then {} else TreatmentArms(entries[..|entries| - 1]) + {entries[|entries| - 1].treatment.arm}
  }

  function ControlArms(entries: seq<Entry>): set<Arm> {
    if entries == [] then {}
    else
      var c := entries[|entries| - 1].control;
      ControlArms(entries[..|entries| - 1]) + (if c.Some? then {c.value.arm} else {})
  }

  predicate OneArmPair(entries: seq<Entry>) {
    forall i, j :: 0 <= i < |entries| && 0 <= j < |entries| ==>
      entries[i].treatment.arm == entries[j].treatment.arm
      && (entries[i].control.Some? && entries[j].control.Some? ==>
            entries[i].control.value.arm == entries[j].control.value.arm)
  }

  datatype Estimate = Estimate(
    treatmentArm: Arm, controlArm: Arm, perRupeeDelta: real, point: Paise, totalAtRisk: Paise, strataCount: nat)

  /** What the call demands before it answers. */
  predicate Accepted(entries: seq<Entry>, ws: StratumWeights) {
    entries != [] && MoneySum(ws) != 0 && FirstProblem(entries, ws).None? && OneArmPair(entries)
  }

  lemma {:induction false} NoProblemMeansUsable(entries: seq<Entry>, ws: StratumWeights)
    ensures FirstProblem(entries, ws).None? <==> AllUsable(entries, ws)
  {
    if entries != [] {
      var before, last := entries[..|entries| - 1], entries[|entries| - 1];
      NoProblemMeansUsable(before, ws);
      assert AllUsable(entries, ws) <==> AllUsable(before, ws) && Usable(last, ws) by {
        assert forall i :: 0 <= i < |before| ==> before[i] == entries[i];
      }
    }
  }

  /** The answer: the rounded weighted delta, and that of the declared money. */
  function Headline(entries: seq<Entry>, ws: StratumWeights): Estimate
    requires Accepted(entries, ws)
  {
    NoProblemMeansUsable(entries, ws);
    assert Usable(entries[0], ws);
    var delta := Ratio(Weighted(entries, ws, MoneySum(ws)));
    Estimate(entries[0].treatment.arm, entries[0].control.value.arm, delta, Times(MoneySum(ws), delta), MoneySum(ws), |entries|)
  }

  method SumWeights(ws: StratumWeights) returns (total: Paise)
    ensures total == MoneySum(ws)
  {
    total := 0;
    var k := 0;
    while k < |ws|
      invariant 0 <= k <= |ws| && total == MoneySum(ws[..k])
    {
      assert ws[..k + 1][..k] == ws[..k];
      total := total + ws[k].1;
      k := k + 1;
    }
    assert ws[..k] == ws;
  }

  /** `dict.get`: the entry with that key, if there is one. */
  method LookUp(ws: StratumWeights, s: StratumKey) returns (weight: Option<Paise>)
    ensures weight == WeightOf(ws, s)
  {
    var k := |ws|;
    assert ws[..k] == ws;
    while k > 0
      invariant 0 <= k <= |ws| && WeightOf(ws, s) == WeightOf(ws[..k], s)
    {
      assert ws[..k][..k - 1] == ws[..k - 1];
      if ws[k - 1].0 == s {
        return Some(ws[k - 1].1);
      }
      k := k - 1;
    }
    return None;
  }

  method FindProblem(e: Entry, ws: StratumWeights) returns (problem: Option<MetricError>)
    ensures problem == ProblemOf(e, ws)
  {
    if e.control == None {
      return Some(PresentInOneArmOnly(e.stratum));
    }
    var control := e.control.value;
    if !(e.treatment.stratum == e.stratum && control.stratum == e.stratum) {
      return Some(FiledUnderAnotherStratum(e.stratum));
    }
    var weight := LookUp(ws, e.stratum);
    if weight == None {
      return Some(WeightNotDeclared(e.stratum));
    }
    if control.arm == e.treatment.arm {
      return Some(ArmComparedWithItself(control.arm));
    }
    if control.totalAtRisk == 0 || e.treatment.totalAtRisk == 0 {
      return Some(NoMoneyAtRisk(e.stratum));
    }
    return None;
  }

  /** The headline, or the first reason there is none. */
  method StratumWeightedIncrementalRecovery(entries: seq<Entry>, ws: StratumWeights)
    returns (r: Result<Estimate, MetricError>)
    ensures entries == [] ==> r == Failure(NoStrata)
    ensures entries != [] && MoneySum(ws) == 0 ==> r == Failure(ZeroTotal)
    ensures entries != [] && MoneySum(ws) != 0 && FirstProblem(entries, ws).Some? ==>
              r == Failure(FirstProblem(entries, ws).value)
    ensures entries != [] && MoneySum(ws) != 0 && FirstProblem(entries, ws).None? && !OneArmPair(entries) ==>
              r == Failure(MixedArmPairs)
    ensures r.Success? <==> Accepted(entries, ws)
    ensures r.Success? ==> r.value == Headline(entries, ws)
  {
    hide Delta, Share, Ratio, Times, WeightOf, OneArmPair;
    if entries == [] {
      return Failure(NoStrata);
    }
    var total := SumWeights(ws);
    if total == 0 {
      return Failure(ZeroTotal);
    }
    var treatmentArms: set<Arm>, controlArms: set<Arm> := {}, {};
    var weighted := 0.0;
    var i := 0;
    while i < |entries|
      invariant 0 <= i <= |entries|
      invariant FirstProblem(entries[..i], ws).None? && AllUsable(entries[..i], ws)
      invariant weighted == Weighted(entries[..i], ws, total)
      invariant treatmentArms == TreatmentArms(entries[..i])
      invariant controlArms == ControlArms(entries[..i])
    {
      var e := entries[i];
      assert entries[..i + 1][..i] == entries[..i];
      var problem := FindProblem(e, ws);
      if problem.Some? {
        FirstProblemStands(entries, ws, i + 1);
        return Failure(problem.value);
      }
      assert Usable(e, ws);
      treatmentArms := treatmentArms + {e.treatment.arm};
      controlArms := controlArms + {e.control.value.arm};
      weighted := weighted + Delta(e) * Share(e, ws, total);
      i := i + 1;
    }
    assert entries[..i] == entries;
    assert Usable(entries[0], ws);
    ArmPairs(entries, ws);
    if |treatmentArms| != 1 || |controlArms| != 1 {
      return Failure(MixedArmPairs);
    }
    var delta := Ratio(weighted);
    return Success(Estimate(entries[0].treatment.arm, entries[0].control.value.arm, delta,
                            Times(total, delta), total, |entries|));
  }

  lemma {:induction false} FirstProblemStands(entries: seq<Entry>, ws: StratumWeights, n: nat)
    requires n <= |entries| && FirstProblem(entries[..n], ws).Some?
    ensures FirstProblem(entries, ws) == FirstProblem(entries[..n], ws)
    decreases |entries|
  {
    if n == |entries| {
      assert entries[..n] == entries;
    } else {
      assert entries[..|entries| - 1][..n] == entries[..n];
      FirstProblemStands(entries[..|entries| - 1], ws, n);
    }
  }

  lemma SingletonArms(arms: set<Arm>, a: Arm)
    requires a in arms
    ensures |arms| == 1 <==> forall b :: b in arms ==> b == a
  {
    if |arms| == 1 {
      assert |arms - {a}| == 0;
      assert arms - {a} == {};
    }
    if forall b :: b in arms ==> b == a {
      assert arms == {a};
    }
  }

  lemma {:induction false} ArmMembers(entries: seq<Entry>)
    ensures forall a :: a in TreatmentArms(entries) <==> exists j :: 0 <= j < |entries| && entries[j].treatment.arm == a
    ensures forall a :: a in ControlArms(entries) <==>
              exists j :: 0 <= j < |entries| && entries[j].control.Some? && entries[j].control.value.arm == a
  {
    if entries != [] {
      var before := entries[..|entries| - 1];
      ArmMembers(before);
      assert forall j :: 0 <= j < |before| ==> before[j] == entries[j];
    }
  }

  lemma ArmPairs(entries: seq<Entry>, ws: StratumWeights)
    requires entries != [] && AllUsable(entries, ws)
    ensures |TreatmentArms(entries)| == 1 && |ControlArms(entries)| == 1 <==> OneArmPair(entries)
  {
    hide TreatmentArms, ControlArms;
    ArmMembers(entries);
    var treatmentArms, controlArms := TreatmentArms(entries), ControlArms(entries);
    assert Usable(entries[0], ws);
    SingletonArms(treatmentArms, entries[0].treatment.arm);
    SingletonArms(controlArms, entries[0].control.value.arm);
    if |treatmentArms| == 1 && |controlArms| == 1 {
      forall j | 0 <= j < |entries|
        ensures entries[j].treatment.arm == entries[0].treatment.arm
        ensures entries[j].control.Some? && entries[j].control.value.arm == entries[0].control.value.arm
      {
        assert Usable(entries[j], ws);
        assert entries[j].treatment.arm in treatmentArms && entries[j].control.value.arm in controlArms;
      }
    }
  }

  // ------------------------------------------------------------ the error bound

  predicate NonNegative(ws: StratumWeights) {
    forall i :: 0 <= i < |ws| ==> ws[i].1 >= 0
  }

  /** The declared money of the compared strata. */
  function Compared(entries: seq<Entry>, ws: StratumWeights): Paise
    requires AllUsable(entries, ws)
  {
    if entries == [] then 0
    else
      var e := entries[|entries| - 1];
      assert Usable(e, ws);
      Compared(entries[..|entries| - 1], ws) + WeightOf(ws, e.stratum).value
  }

  lemma DeltaIsClose(e: Entry, ws: StratumWeights)
    requires Usable(e, ws)
    ensures Within(Delta(e), ExactDelta(e), DELTA_ERROR)
  {
    RatioIsClose(ExactRate(e.treatment));
    RatioIsClose(ExactRate(e.control.value));
  }

  lemma {:induction false} WeightIsDeclared(ws: StratumWeights, s: StratumKey)
    requires WeightOf(ws, s).Some? && NonNegative(ws)
    ensures WeightOf(ws, s).value >= 0
  {
    if ws[|ws| - 1].0 != s {
      WeightIsDeclared(ws[..|ws| - 1], s);
    }
  }

  /** Scaling an error by a non-negative weight. */
  lemma ScaledError(x: real, y: real, e: real, w: real)
    requires Within(x, y, e) && w >= 0.0
    ensures Within(x * w, y * w, e * w)
  {
    var d := x - y;
    assert d * w <= e * w;
    assert -e * w <= d * w;
    assert x * w - y * w == d * w;
  }

  lemma ShareTimesTotal(e: Entry, ws: StratumWeights, total: Paise)
    requires WeightOf(ws, e.stratum).Some? && total != 0
    ensures Share(e, ws, total) * (total as real) == WeightOf(ws, e.stratum).value as real
  {
  }

  lemma ErrorsAdd(a: real, b: real, e: real, x: real, y: real, f: real)
    requires Within(a, b, e) && Within(x, y, f)
    ensures Within(a + x, b + y, e + f)
  {
  }

  /** `sum` of the total is within `e` of each compared rupee of `exact`. */
  predicate CloseOn(sum: real, total: real, exact: real, compared: real, e: real) {
    Within(sum * total, exact, e * compared)
  }

  /** One more stratum adds at most its own error. */
  lemma OneMoreTerm(sum: real, exact: real, c: real, delta: real, exactDelta: real, share: real, t: real, w: real, e: real,
                    sum': real, exact': real, c': real)
    requires CloseOn(sum, t, exact, c, e) && Within(delta, exactDelta, e)
    requires share * t == w && w >= 0.0
    requires sum' == sum + delta * share && exact' == exact + exactDelta * w && c' == c + w
    ensures CloseOn(sum', t, exact', c', e)
  {
    ScaledError(delta, exactDelta, e, w);
    ShareOut(sum, delta, share, t, w, sum');
    SumOfErrors(e, c, w, c');
    ErrorsAdd(sum * t, exact, e * c, delta * w, exactDelta * w, e * w);
  }

  lemma ShareOut(sum: real, delta: real, share: real, t: real, w: real, sum': real)
    requires share * t == w && sum' == sum + delta * share
    ensures sum' * t == sum * t + delta * w
  {
    assert (delta * share) * t == delta * (share * t);
    assert (sum + delta * share) * t == sum * t + (delta * share) * t;
  }

  lemma SumOfErrors(e: real, c: real, w: real, c': real)
    requires c' == c + w
    ensures e * c' == e * c + e * w
  {
  }

  /** Per stratum at most a millionth of its money, so the weighted sum is off by at most
      a millionth of the compared money. */
  lemma {:induction false} WeightedIsClose(entries: seq<Entry>, ws: StratumWeights, total: Paise)
    requires AllUsable(entries, ws) && NonNegative(ws) && total > 0
    ensures CloseOn(Weighted(entries, ws, total), total as real, ExactPoint(entries, ws),
                    Compared(entries, ws) as real, DELTA_ERROR)
  {
    hide Delta, ExactDelta, Share, WeightOf, Within;
    if entries == [] {
      NothingIsClose(total as real, DELTA_ERROR);
    } else {
      hide CloseOn;
      var e, before := entries[|entries| - 1], entries[..|entries| - 1];
      assert Usable(e, ws);
      var w := WeightOf(ws, e.stratum).value;
      WeightedIsClose(before, ws, total);
      DeltaIsClose(e, ws);
      WeightIsDeclared(ws, e.stratum);
      ShareTimesTotal(e, ws, total);
      assert ExactPoint(entries, ws) == ExactPoint(before, ws) + ExactDelta(e) * (w as real);
      OneMoreTerm(Weighted(before, ws, total), ExactPoint(before, ws), Compared(before, ws) as real,
                  Delta(e), ExactDelta(e), Share(e, ws, total), total as real, w as real, DELTA_ERROR,
                  Weighted(entries, ws, total), ExactPoint(entries, ws), Compared(entries, ws) as real);
    }
  }

  lemma NothingIsClose(t: real, e: real)
    ensures CloseOn(0.0, t, 0.0, 0.0, e)
  {
  }

  /** Removing one stratum's weight from the declared ones. */
  function Without(ws: StratumWeights, s: StratumKey): StratumWeights {
    if ws == [] then []
    else if ws[|ws| - 1].0 == s then ws[..|ws| - 1]
    else Without(ws[..|ws| - 1], s) + [ws[|ws| - 1]]
  }

  lemma {:induction false} WithoutIsAPart(ws: StratumWeights, s: StratumKey)
    requires DistinctWeights(ws) && NonNegative(ws)
    ensures forall x :: x in Without(ws, s) ==> x in ws
    ensures NonNegative(Without(ws, s)) && DistinctWeights(Without(ws, s))
  {
    if ws != [] {
      var before, last := ws[..|ws| - 1], ws[|ws| - 1];
      var rest := Without(before, s);
      WithoutIsAPart(before, s);
      assert forall x :: x in before ==> x in ws;
      forall i | 0 <= i < |rest| ensures rest[i].0 != last.0 {
        assert rest[i] in rest;
        assert rest[i] in before;
        var k :| 0 <= k < |before| && before[k] == rest[i];
        assert ws[k].0 != ws[|ws| - 1].0;
      }
    }
  }

  lemma {:induction false} WithoutTakesItsWeight(ws: StratumWeights, s: StratumKey)
    requires WeightOf(ws, s).Some?
    ensures MoneySum(ws) == MoneySum(Without(ws, s)) + WeightOf(ws, s).value
  {
    var before, last := ws[..|ws| - 1], ws[|ws| - 1];
    if last.0 != s {
      WithoutTakesItsWeight(before, s);
      var rest := Without(before, s);
      assert (rest + [last])[..|rest|] == rest;
    }
  }

  lemma {:induction false} WithoutKeepsTheOthers(ws: StratumWeights, s: StratumKey, other: StratumKey)
    requires other != s
    ensures WeightOf(Without(ws, s), other) == WeightOf(ws, other)
  {
    if ws != [] {
      var before, last := ws[..|ws| - 1], ws[|ws| - 1];
      WithoutKeepsTheOthers(before, s, other);
      var rest := Without(before, s);
      assert (rest + [last])[..|rest|] == rest;
    }
  }

  lemma {:induction false} SumIsNonNegative(ws: StratumWeights)
    requires NonNegative(ws)
    ensures MoneySum(ws) >= 0
  {
    if ws != [] {
      SumIsNonNegative(ws[..|ws| - 1]);
    }
  }

  /** Compared strata are distinct, so together they hold at most the declared total. */
  lemma {:induction false} ComparedWithinTotal(entries: seq<Entry>, ws: StratumWeights)
    requires AllUsable(entries, ws) && DistinctStrata(entries) && DistinctWeights(ws) && NonNegative(ws)
    ensures 0 <= Compared(entries, ws) <= MoneySum(ws)
  {
    if entries == [] {
      SumIsNonNegative(ws);
    } else {
      var e, before := entries[|entries| - 1], entries[..|entries| - 1];
      assert Usable(e, ws);
      WeightIsDeclared(ws, e.stratum);
      var rest := Without(ws, e.stratum);
      WithoutTakesItsWeight(ws, e.stratum);
      WithoutIsAPart(ws, e.stratum);
      forall i | 0 <= i < |before| ensures Usable(before[i], rest) && WeightOf(rest, before[i].stratum) == WeightOf(ws, before[i].stratum) {
        assert Usable(entries[i], ws) && entries[i].stratum != entries[|entries| - 1].stratum;
        WithoutKeepsTheOthers(ws, e.stratum, before[i].stratum);
      }
      ComparedWithinTotal(before, rest);
      SameWeightsSameMoney(before, ws, rest);
    }
  }

  lemma {:induction false} SameWeightsSameMoney(entries: seq<Entry>, a: StratumWeights, b: StratumWeights)
    requires AllUsable(entries, a) && AllUsable(entries, b)
    requires forall i :: 0 <= i < |entries| ==> WeightOf(a, entries[i].stratum) == WeightOf(b, entries[i].stratum)
    ensures Compared(entries, a) == Compared(entries, b)
  {
    if entries != [] {
      SameWeightsSameMoney(entries[..|entries| - 1], a, b);
    }
  }

  /** One and a half millionths of the money, and half a paisa. */
  function PublishedError(total: real): real {
    (DELTA_ERROR + RATIO_ERROR) * total + 0.5
  }

  /** The published point differs from the exact weighted estimate by at most
      1.5 millionths of the total at risk plus half a paisa, for any number of strata,
      counting the rounding of both rates, of the delta and of the money. */
  lemma ReportIsClose(entries: seq<Entry>, ws: StratumWeights)
    requires AllUsable(entries, ws) && DistinctStrata(entries) && DistinctWeights(ws) && NonNegative(ws)
    requires MoneySum(ws) > 0
    ensures var total := MoneySum(ws);
            Within(Times(total, Ratio(Weighted(entries, ws, total))) as real, ExactPoint(entries, ws),
                   PublishedError(total as real))
  {
    hide Weighted, ExactPoint, Compared, Ratio, Times, MoneySum, CloseOn, Within, PublishedError;
    var total := MoneySum(ws);
    WeightedIsClose(entries, ws, total);
    ComparedWithinTotal(entries, ws);
    assert 0.0 <= Compared(entries, ws) as real <= total as real;
    ReportedIsClose(total, Compared(entries, ws) as real, Weighted(entries, ws, total), ExactPoint(entries, ws),
                    DELTA_ERROR, RATIO_ERROR);
  }

  /** The rounding of the delta and of the money on top of the sum's own error. */
  lemma ReportedIsClose(total: Paise, c: real, weighted: real, exact: real, e: real, f: real)
    requires 0.0 <= c <= total as real && CloseOn(weighted, total as real, exact, c, e)
    requires e == DELTA_ERROR && f == RATIO_ERROR
    ensures Within(Times(total, Ratio(weighted)) as real, exact, PublishedError(total as real))
  {
    hide Ratio, Times;
    var t := total as real;
    RatioIsClose(weighted);
    TimesIsClose(total, Ratio(weighted), t * Ratio(weighted));
    ErrorsAddUp(t, c, weighted, Ratio(weighted), exact, t * Ratio(weighted), Times(total, Ratio(weighted)) as real, e, f);
    assert (e + f) * t + 0.5 == PublishedError(t);
  }

  lemma TimesIsClose(amount: Paise, factor: real, product: real)
    requires product == amount as real * factor
    ensures Within(Times(amount, factor) as real, product, 0.5)
  {
    hide Round;
    RoundIsNearest(amount as real * factor);
  }

  lemma ErrorsAddUp(t: real, c: real, weighted: real, delta: real, exact: real, product: real, point: real, e: real, f: real)
    requires 0.0 <= c <= t && e >= 0.0
    requires CloseOn(weighted, t, exact, c, e)
    requires Within(delta, weighted, f)
    requires product == t * delta && Within(point, product, 0.5)
    ensures Within(point, exact, (e + f) * t + 0.5)
  {
    ScaledError(delta, weighted, f, t);
    assert product == delta * t;
    assert e * c <= e * t;
    assert (e + f) * t == e * t + f * t;
    var x, y, z := point - product, delta * t - weighted * t, weighted * t - exact;
    assert point - exact == x + y + z;
    assert -(e * c) <= z <= e * c;
    assert -(f * t) <= y <= f * t;
  }

  // ------------------------------------------------------------ the bound over the inputs

  /** What the call accepts, entry by entry: both sides there and filed under their stratum,
      the weight declared, two different arms, money at risk on both sides, and one pair of
      arms throughout. */
  predicate EntryFits(e: Entry, ws: StratumWeights) {
    match e.control
    case None => false
    case Some(control) =>
      && e.treatment.stratum == e.stratum == control.stratum
      && (exists i :: 0 <= i < |ws| && ws[i].0 == e.stratum)
      && e.treatment.arm != control.arm && e.treatment.totalAtRisk != 0 && control.totalAtRisk != 0
  }

  lemma {:induction false} DeclaredExactly(ws: StratumWeights, s: StratumKey)
    ensures WeightOf(ws, s).Some? <==> exists i :: 0 <= i < |ws| && ws[i].0 == s
    ensures DistinctWeights(ws) ==> forall v :: (s, v) in ws ==> WeightOf(ws, s) == Some(v)
  {
    if ws != [] {
      var before, last := ws[..|ws| - 1], ws[|ws| - 1];
      DeclaredExactly(before, s);
      assert ws == before + [last];
      assert forall i :: 0 <= i < |before| ==> before[i] == ws[i];
      if DistinctWeights(ws) && last.0 == s {
        forall v | (s, v) in ws ensures v == last.1 {
          var i :| 0 <= i < |ws| && ws[i] == (s, v);
          assert i == |ws| - 1;
        }
      }
    }
  }

  lemma AcceptedExactly(entries: seq<Entry>, ws: StratumWeights)
    ensures Accepted(entries, ws) <==>
              && |entries| > 0 && MoneySum(ws) != 0
              && (forall i :: 0 <= i < |entries| ==> EntryFits(entries[i], ws))
              && (forall i, j :: 0 <= i < |entries| && 0 <= j < |entries| ==>
                    entries[i].treatment.arm == entries[j].treatment.arm
                    && (entries[i].control.Some? && entries[j].control.Some? ==>
                          entries[i].control.value.arm == entries[j].control.value.arm))
  {
    hide FirstProblem, WeightOf, MoneySum;
    NoProblemMeansUsable(entries, ws);
    forall i | 0 <= i < |entries| ensures Usable(entries[i], ws) <==> EntryFits(entries[i], ws) {
      DeclaredExactly(ws, entries[i].stratum);
    }
  }

  predicate Compares(entries: seq<Entry>) {
    forall i :: 0 <= i < |entries| ==>
      entries[i].control.Some? && entries[i].treatment.totalAtRisk != 0 && entries[i].control.value.totalAtRisk != 0
  }

  /** The money gained at the exact rates, from the inputs alone: for each stratum its weight
      times what treatment recovered per rupee, net of its cost, less what control did. */
  function MoneyGained(entries: seq<Entry>, weights: seq<Paise>): real
    requires Compares(entries) && |weights| == |entries|
  {
    if entries == [] then 0.0
    else
      var n := |entries| - 1;
      var t, c := entries[n].treatment, entries[n].control.value;
      MoneyGained(entries[..n], weights[..n])
      + weights[n] as real * ((t.grossRecovered - t.costToCollect) as real / t.totalAtRisk as real
                              - (c.grossRecovered - c.costToCollect) as real / c.totalAtRisk as real)
  }

  /** `weights[i]` is declared for the stratum of entry `i`. */
  predicate Weigh(entries: seq<Entry>, ws: StratumWeights, weights: seq<Paise>) {
    |weights| == |entries| && forall i :: 0 <= i < |entries| ==> (entries[i].stratum, weights[i]) in ws
  }

  lemma Commuted(x: real, w: real)
    ensures x * w == w * x
  {
  }

  lemma UsableCompare(entries: seq<Entry>, ws: StratumWeights)
    requires AllUsable(entries, ws)
    ensures Compares(entries)
  {
    forall i | 0 <= i < |entries|
      ensures entries[i].control.Some? && entries[i].treatment.totalAtRisk != 0 && entries[i].control.value.totalAtRisk != 0
    {
      assert Usable(entries[i], ws);
    }
  }

  lemma {:induction false} GainedIsExact(entries: seq<Entry>, ws: StratumWeights, weights: seq<Paise>)
    requires AllUsable(entries, ws) && DistinctWeights(ws) && Weigh(entries, ws, weights) && Compares(entries)
    ensures MoneyGained(entries, weights) == ExactPoint(entries, ws)
  {
    hide WeightOf, DistinctWeights;
    if entries != [] {
      var n := |entries| - 1;
      var e := entries[n];
      assert Usable(e, ws);
      GainedIsExact(entries[..n], ws, weights[..n]);
      DeclaredExactly(ws, e.stratum);
      assert (e.stratum, weights[n]) in ws;
      Commuted(ExactDelta(e), weights[n] as real);
    }
  }

  /** The published point differs from the money gained at the exact rates by at most 1.5
      millionths of the money at risk plus half a paisa, for any number of strata, counting
      the rounding of both rates, of the delta and of the money. */
  lemma PointIsClose(entries: seq<Entry>, ws: StratumWeights, weights: seq<Paise>)
    requires Accepted(entries, ws) && DistinctStrata(entries) && DistinctWeights(ws) && NonNegative(ws)
    requires MoneySum(ws) > 0 && Weigh(entries, ws, weights)
    ensures Compares(entries)
    ensures var r, total := Headline(entries, ws), MoneySum(ws) as real;
            && Within(r.point as real, MoneyGained(entries, weights), 0.000_001_5 * total + 0.5)
            && r.totalAtRisk == MoneySum(ws) && r.strataCount == |entries|
            && (forall i :: 0 <= i < |entries| ==>
                  entries[i].treatment.arm == r.treatmentArm && entries[i].control.value.arm == r.controlArm)
  {
    hide Weighted, ExactPoint, MoneyGained, Ratio, Times, MoneySum, FirstProblem, DistinctWeights, DistinctStrata, NonNegative;
    NoProblemMeansUsable(entries, ws);
    UsableCompare(entries, ws);
    ReportIsClose(entries, ws);
    GainedIsExact(entries, ws, weights);
  }

  lemma DeltaErrorsAddUp(t: real, c: real, weighted: real, delta: real, exact: real, e: real, f: real)
    requires 0.0 <= c <= t && e >= 0.0 && CloseOn(weighted, t, exact, c, e) && Within(delta, weighted, f)
    ensures var error := e * t + f * t; -error <= delta * t - exact <= error
  {
    ScaledError(delta, weighted, f, t);
    assert e * c <= e * t;
    var x, z := delta * t - weighted * t, weighted * t - exact;
    assert delta * t - exact == x + z;
    assert -(f * t) <= x <= f * t;
    assert -(e * c) <= z <= e * c;
  }

  /** The delta itself, times the money at risk, is within 1.5 millionths of that money. */
  lemma RateIsClose(entries: seq<Entry>, ws: StratumWeights, weights: seq<Paise>)
    requires Accepted(entries, ws) && DistinctStrata(entries) && DistinctWeights(ws) && NonNegative(ws)
    requires MoneySum(ws) > 0 && Weigh(entries, ws, weights)
    ensures Compares(entries)
    ensures var total := MoneySum(ws) as real;
            var off := Headline(entries, ws).perRupeeDelta * total - MoneyGained(entries, weights);
            -0.000_001_5 * total <= off <= 0.000_001_5 * total
    ensures InMillionths(Headline(entries, ws).perRupeeDelta)
  {
    hide Weighted, ExactPoint, MoneyGained, Ratio, Times, MoneySum, FirstProblem, DistinctWeights, DistinctStrata, NonNegative,
         Compared, CloseOn, Within, InMillionths, Round;
    NoProblemMeansUsable(entries, ws);
    UsableCompare(entries, ws);
    GainedIsExact(entries, ws, weights);
    var total := MoneySum(ws);
    var weighted := Weighted(entries, ws, total);
    WeightedIsClose(entries, ws, total);
    ComparedWithinTotal(entries, ws);
    RatioIsClose(weighted);
    RateInMillionths(weighted);
    DeltaErrorsAddUp(total as real, Compared(entries, ws) as real, weighted, Ratio(weighted), ExactPoint(entries, ws),
                     DELTA_ERROR, RATIO_ERROR);
    MillionthAndAHalf(total as real);
  }

  lemma MillionthAndAHalf(t: real)
    ensures DELTA_ERROR * t + RATIO_ERROR * t == 0.000_001_5 * t
  {
  }

  /** A whole number of millionths. */
  predicate InMillionths(x: real) {
    (x * 1_000_000.0).Floor as real == x * 1_000_000.0
  }

  lemma RateInMillionths(x: real)
    ensures InMillionths(Ratio(x))
  {
    hide Ratio, Round;
    RatioIsMillionths(x);
    WholeNumber(Round(x * 1_000_000.0), Ratio(x) * 1_000_000.0);
  }

  lemma WholeNumber(n: int, y: real)
    requires y == n as real
    ensures y.Floor as real == y
  {
  }

  // ------------------------------------------------------------ strata with money and no comparison

  function TotalShare(entries: seq<Entry>, ws: StratumWeights, total: Paise): real
    requires AllUsable(entries, ws) && total != 0
  {
    if entries == [] then 0.0
    else
      var e := entries[|entries| - 1];
      assert Usable(e, ws);
      TotalShare(entries[..|entries| - 1], ws, total) + Share(e, ws, total)
  }

  lemma {:induction false} TotalShareIsCompared(entries: seq<Entry>, ws: StratumWeights, total: Paise)
    requires AllUsable(entries, ws) && total != 0
    ensures TotalShare(entries, ws, total) == Compared(entries, ws) as real / total as real
  {
    if entries != [] {
      assert Usable(entries[|entries| - 1], ws);
      TotalShareIsCompared(entries[..|entries| - 1], ws, total);
    }
  }

  /** The weights applied are a weighted average if and only if the compared strata hold all
      the declared money: a stratum that is declared but not compared is not refused, it
      silently counts as no lift. */
  lemma WeightsSumToOneExactlyWhenAllIsCompared(entries: seq<Entry>, ws: StratumWeights)
    requires AllUsable(entries, ws) && MoneySum(ws) != 0
    ensures TotalShare(entries, ws, MoneySum(ws)) == 1.0 <==> Compared(entries, ws) == MoneySum(ws)
  {
    hide TotalShare, Compared, MoneySum;
    TotalShareIsCompared(entries, ws, MoneySum(ws));
    RatioIsOne(Compared(entries, ws), MoneySum(ws));
  }

  lemma RatioIsOne(a: int, b: int)
    requires b != 0
    ensures a as real / b as real == 1.0 <==> a == b
  {
    var q := a as real / b as real;
    assert q * b as real == a as real;
  }

  /** Declaring one more stratum changes no other weight. */
  lemma OneMoreWeight(ws: StratumWeights, s: StratumKey, w: Paise)
    ensures MoneySum(ws + [(s, w)]) == MoneySum(ws) + w
    ensures forall other :: other != s ==> WeightOf(ws + [(s, w)], other) == WeightOf(ws, other)
  {
    assert (ws + [(s, w)])[..|ws|] == ws;
  }

  lemma ComparedStaysUsable(entries: seq<Entry>, ws: StratumWeights, s: StratumKey, w: Paise)
    requires AllUsable(entries, ws) && WeightOf(ws, s).None?
    ensures AllUsable(entries, ws + [(s, w)])
    ensures forall i :: 0 <= i < |entries| ==> WeightOf(ws + [(s, w)], entries[i].stratum) == WeightOf(ws, entries[i].stratum)
  {
    OneMoreWeight(ws, s, w);
    forall i | 0 <= i < |entries|
      ensures Usable(entries[i], ws + [(s, w)])
      ensures WeightOf(ws + [(s, w)], entries[i].stratum) == WeightOf(ws, entries[i].stratum)
    {
      assert Usable(entries[i], ws);
    }
  }

  lemma ScaledTerm(sum: real, delta: real, weight: real, a: real, b: real)
    requires a != 0.0 && b != 0.0
    ensures (sum + delta * (weight / a)) * a == sum * a + delta * weight
    ensures (sum + delta * (weight / b)) * b == sum * b + delta * weight
  {
    ShareOut(sum, delta, weight / a, a, weight, sum + delta * (weight / a));
    ShareOut(sum, delta, weight / b, b, weight, sum + delta * (weight / b));
  }

  /** The weighted sum times its total does not depend on the total, nor on weights nobody uses. */
  lemma {:induction false} SameMoneyBehindTheSum(entries: seq<Entry>, a: StratumWeights, b: StratumWeights, x: Paise, y: Paise)
    requires AllUsable(entries, a) && AllUsable(entries, b) && x != 0 && y != 0
    requires forall i :: 0 <= i < |entries| ==> WeightOf(a, entries[i].stratum) == WeightOf(b, entries[i].stratum)
    ensures Weighted(entries, a, x) * (x as real) == Weighted(entries, b, y) * (y as real)
  {
    hide Delta, WeightOf;
    if entries != [] {
      var e, before := entries[|entries| - 1], entries[..|entries| - 1];
      assert Usable(e, a) && Usable(e, b);
      SameMoneyBehindTheSum(before, a, b, x, y);
      var weight := WeightOf(a, e.stratum).value as real;
      ScaledTerm(Weighted(before, a, x), Delta(e), weight, x as real, y as real);
      ScaledTerm(Weighted(before, b, y), Delta(e), weight, x as real, y as real);
    }
  }

  /** A rate over `part` of the money, spread over all of it. */
  function Spread(rate: real, part: Paise, whole: Paise): real
    requires whole != 0
  {
    rate * (part as real / whole as real)
  }

  lemma QuotientBack(a: real, b: real)
    requires b != 0.0
    ensures (a / b) * b == a
  {
  }

  lemma SameProductSameFactor(p: real, q: real, x: real)
    requires p * x == q * x && x != 0.0
    ensures p == q
  {
    assert (p - q) * x == 0.0;
    if p != q {
      NonZeroProduct(p - q, x);
    }
  }

  lemma NonZeroProduct(d: real, x: real)
    requires d != 0.0 && x != 0.0
    ensures d * x != 0.0
  {
  }

  lemma SpreadOut(p: real, q: real, part: Paise, whole: Paise)
    requires p * (whole as real) == q * (part as real) && whole != 0
    ensures p == Spread(q, part, whole)
  {
    var k, x := part as real / whole as real, whole as real;
    QuotientBack(part as real, x);
    assert (q * k) * x == q * (k * x);
    SameProductSameFactor(p, q * k, x);
  }

  /** A declared stratum nobody compared is never refused, whatever money it holds: the
      call still answers, and the delta it answers with is the weighted delta of the
      others scaled down by exactly the declared money they hold. */
  lemma UncomparedStratumDilutes(entries: seq<Entry>, ws: StratumWeights, s: StratumKey, w: Paise)
    requires Accepted(entries, ws) && WeightOf(ws, s).None? && MoneySum(ws) + w != 0
    ensures var more, total := ws + [(s, w)], MoneySum(ws);
            && Accepted(entries, more) && AllUsable(entries, ws)
            && Headline(entries, more).totalAtRisk == total + w
            && Headline(entries, more).strataCount == Headline(entries, ws).strataCount
            && Headline(entries, more).perRupeeDelta
               == Ratio(Spread(Weighted(entries, ws, total), total, total + w))
  {
    hide Spread, Weighted, Ratio, Times, WeightOf, MoneySum;
    var more, total := ws + [(s, w)], MoneySum(ws);
    NoProblemMeansUsable(entries, ws);
    NoProblemMeansUsable(entries, more);
    ComparedStaysUsable(entries, ws, s, w);
    OneMoreWeight(ws, s, w);
    SameMoneyBehindTheSum(entries, more, ws, total + w, total);
    SpreadOut(Weighted(entries, more, total + w), Weighted(entries, ws, total), total, total + w);
  }

  /** As much money again in a stratum nobody compared halves the reported delta. */
  lemma AsMuchUncomparedHalves(entries: seq<Entry>, ws: StratumWeights, s: StratumKey)
    requires Accepted(entries, ws) && WeightOf(ws, s).None?
    ensures var more := ws + [(s, MoneySum(ws))];
            && Accepted(entries, more) && AllUsable(entries, ws)
            && Headline(entries, more).perRupeeDelta == Ratio(Weighted(entries, ws, MoneySum(ws)) / 2.0)
  {
    hide Spread, Weighted, Ratio, WeightOf, MoneySum, Headline, Accepted;
    var total := MoneySum(ws);
    assert total != 0 by {
      NonZeroTotal(entries, ws);
    }
    UncomparedStratumDilutes(entries, ws, s, total);
    HalfOf(Weighted(entries, ws, total), total);
  }

  lemma NonZeroTotal(entries: seq<Entry>, ws: StratumWeights)
    requires Accepted(entries, ws)
    ensures MoneySum(ws) != 0
  {
  }

  lemma HalfOf(x: real, total: Paise)
    requires total != 0
    ensures Spread(x, total, total + total) == x / 2.0
  {
    var half := x / 2.0;
    assert (half + half) * (total as real) == x * (total as real);
    SpreadOut(half, x, total, total + total);
  }

  // ------------------------------------------------------------ the denominator

  type AtRiskItems = seq<(ObligationId, Paise)>

  predicate Mentioned(items: AtRiskItems, o: ObligationId) {
    exists i :: 0 <= i < |items| && items[i].0 == o
  }

  /** The sum over obligations, each counted once, at its first mention. */
  function SumOfFirstMentions(items: AtRiskItems): Paise {
    if items == [] then 0
    else
      var earlier, last := items[..|items| - 1], items[|items| - 1];
      SumOfFirstMentions(earlier) + (if Mentioned(earlier, last.0) then 0 else last.1)
  }

  predicate Conflicting(items: AtRiskItems) {
    exists i, j :: 0 <= i < j < |items| && items[i].0 == items[j].0 && items[i].1 != items[j].1
  }

  ghost predicate Remembers(seen: map<ObligationId, Paise>, items: AtRiskItems) {
    && (forall o :: o in seen <==> Mentioned(items, o))
    && (forall j :: 0 <= j < |items| ==> items[j].0 in seen && seen[items[j].0] == items[j].1)
  }

  lemma RemembersOneMore(seen: map<ObligationId, Paise>, items: AtRiskItems, x: (ObligationId, Paise))
    requires Remembers(seen, items) && (x.0 in seen ==> seen[x.0] == x.1)
    ensures Remembers(seen[x.0 := x.1], items + [x])
  {
    var more := items + [x];
    forall o ensures o in seen[x.0 := x.1] <==> Mentioned(more, o) {
      if Mentioned(items, o) {
        var i :| 0 <= i < |items| && items[i].0 == o;
        assert more[i].0 == o;
      }
      assert more[|items|] == x;
    }
  }

  lemma SumOneMore(items: AtRiskItems, x: (ObligationId, Paise))
    ensures SumOfFirstMentions(items + [x]) == SumOfFirstMentions(items) + (if Mentioned(items, x.0) then 0 else x.1)
  {
    assert (items + [x])[..|items|] == items;
  }

  lemma RememberedDiffers(seen: map<ObligationId, Paise>, items: AtRiskItems, i: nat)
    requires i < |items| && Remembers(seen, items[..i])
    requires items[i].0 in seen && seen[items[i].0] != items[i].1
    ensures Conflicting(items)
  {
    assert Mentioned(items[..i], items[i].0);
    var j :| 0 <= j < i && items[..i][j].0 == items[i].0;
    assert items[j] == items[..i][j];
  }

  /** Each obligation counts once; two amounts for one obligation are refused. */
  method TotalAmountAtRisk(items: AtRiskItems) returns (total: Option<Paise>)
    ensures total.None? <==> Conflicting(items)
    ensures total.Some? ==> total.value == SumOfFirstMentions(items)
  {
    hide Remembers, SumOfFirstMentions;
    var seen: map<ObligationId, Paise> := map[];
    var sum := 0;
    var i := 0;
    NothingRemembered(items);
    while i < |items|
      invariant 0 <= i <= |items|
      invariant Remembers(seen, items[..i])
      invariant sum == SumOfFirstMentions(items[..i])
    {
      var (o, amount) := items[i];
      RememberedIsMentioned(seen, items[..i], o);
      if o in seen && seen[o] != amount {
        RememberedDiffers(seen, items, i);
        return None;
      }
      RemembersOneMore(seen, items[..i], items[i]);
      SumOneMore(items[..i], items[i]);
      assert items[..i + 1] == items[..i] + [items[i]];
      if o !in seen {
        sum := sum + amount;
      }
      seen := seen[o := amount];
      i := i + 1;
    }
    assert items[..i] == items;
    RememberedDoNotConflict(seen, items);
    return Some(sum);
  }

  lemma NothingRemembered(items: AtRiskItems)
    ensures Remembers(map[], items[..0]) && SumOfFirstMentions(items[..0]) == 0
  {
  }

  lemma RememberedIsMentioned(seen: map<ObligationId, Paise>, items: AtRiskItems, o: ObligationId)
    requires Remembers(seen, items)
    ensures o in seen <==> Mentioned(items, o)
  {
  }

  lemma RememberedDoNotConflict(seen: map<ObligationId, Paise>, items: AtRiskItems)
    requires Remembers(seen, items)
    ensures !Conflicting(items)
  {
  }
}
