/**
 Randomised assignment (reclaim/contracts/experiment.py): the independent hash draw and
 permuted blocks within a stratum. Hash bytes are arbitrary; balance does not depend on them.
 */
module Experiment {
  import opened Vocabulary
  import opened Divisibility

  const PERMILLE_TOTAL := 1000

  type Weights = map<Arm, nat>

  function SumOfFirst(w: Weights, n: nat): nat
    requires n <= |ALL_ARMS| && forall a: Arm :: a in w
  {
    if n == 0 then 0 else SumOfFirst(w, n - 1) + w[ALL_ARMS[n - 1]]
  }

  /** Every arm is listed and the thousandths sum to exactly a thousand. */
  predicate ValidWeights(w: Weights) {
    (forall a: Arm :: a in w) && SumOfFirst(w, |ALL_ARMS|) == PERMILLE_TOTAL
  }

  // ------------------------------------------------------------ the smallest exact block

  function GcdOfFirst(w: Weights, n: nat): nat
    requires n <= |ALL_ARMS| && forall a: Arm :: a in w
  {
    if n == 0 then 0 else Gcd(GcdOfFirst(w, n - 1), w[ALL_ARMS[n - 1]])
  }

  lemma {:induction false} NoDivisorNoWeight(w: Weights, n: nat)
    requires n <= |ALL_ARMS| && (forall a: Arm :: a in w) && GcdOfFirst(w, n) == 0
    ensures SumOfFirst(w, n) == 0
    ensures forall i :: 0 <= i < n ==> w[ALL_ARMS[i]] == 0
  {
    if n > 0 {
      NoDivisorNoWeight(w, n - 1);
    }
  }

  lemma {:induction false} DivisorDividesEach(w: Weights, n: nat, i: nat)
    requires i < n <= |ALL_ARMS| && (forall a: Arm :: a in w) && GcdOfFirst(w, n) > 0
    ensures Divides(GcdOfFirst(w, n), w[ALL_ARMS[i]])
    decreases n
  {
    hide Gcd;
    var before, last := GcdOfFirst(w, n - 1), w[ALL_ARMS[n - 1]];
    SomeOneIsPositive(before, last);
    GcdDivides(before, last);
    if i < n - 1 {
      if before == 0 {
        NoDivisorNoWeight(w, n - 1);
        assert w[ALL_ARMS[i]] == 0;
      } else {
        DivisorDividesEach(w, n - 1, i);
        DividesOnward(GcdOfFirst(w, n), before, w[ALL_ARMS[i]]);
      }
    }
  }

  lemma {:induction false} DivisorDividesTheSum(w: Weights, n: nat, g: nat)
    requires n <= |ALL_ARMS| && (forall a: Arm :: a in w) && g > 0
    requires forall i :: 0 <= i < n ==> Divides(g, w[ALL_ARMS[i]])
    ensures Divides(g, SumOfFirst(w, n))
  {
    if n > 0 {
      DivisorDividesTheSum(w, n - 1, g);
      assert Divides(g, w[ALL_ARMS[n - 1]]);
      MultiplesAddUp(g, SumOfFirst(w, n - 1), w[ALL_ARMS[n - 1]]);
    }
  }

  lemma {:induction false} DivisorIsGreatest(w: Weights, n: nat, d: nat, m: nat)
    requires n <= |ALL_ARMS| && (forall a: Arm :: a in w) && d > 0
    requires forall i :: 0 <= i < n ==> Divides(d, m * w[ALL_ARMS[i]])
    ensures (m * GcdOfFirst(w, n)) % d == 0
  {
    if n == 0 {
      ModUnique(d, 0, 0);
    } else {
      DivisorIsGreatest(w, n - 1, d, m);
      assert Divides(d, m * w[ALL_ARMS[n - 1]]);
      GcdIsGreatest(GcdOfFirst(w, n - 1), w[ALL_ARMS[n - 1]], d, m);
    }
  }

  function Divisor(w: Weights): (g: nat)
    requires ValidWeights(w)
    ensures g > 0
  {
    DivisorIsPositive(w);
    GcdOfFirst(w, |ALL_ARMS|)
  }

  lemma DivisorIsPositive(w: Weights)
    requires ValidWeights(w)
    ensures GcdOfFirst(w, |ALL_ARMS|) > 0
  {
    if GcdOfFirst(w, |ALL_ARMS|) == 0 {
      NoDivisorNoWeight(w, |ALL_ARMS|);
    }
  }

  function BlockSize(w: Weights): nat
    requires ValidWeights(w)
  {
    PERMILLE_TOTAL / Divisor(w)
  }

  /** How many of one block's cases go to the arm. */
  function Copies(w: Weights, arm: Arm): nat
    requires ValidWeights(w)
  {
    w[arm] / Divisor(w)
  }

  lemma ArmPosition(arm: Arm) returns (i: nat)
    ensures i < |ALL_ARMS| && ALL_ARMS[i] == arm
  {
    EveryArmIsListed(arm);
    i :| 0 <= i < |ALL_ARMS| && ALL_ARMS[i] == arm;
  }

  /** Nothing is lost to rounding: the divisor splits every weight and the total. */
  lemma BlocksAreExact(w: Weights, arm: Arm)
    requires ValidWeights(w)
    ensures BlockSize(w) > 0
    ensures BlockSize(w) * Divisor(w) == PERMILLE_TOTAL
    ensures Copies(w, arm) * Divisor(w) == w[arm]
  {
    hide GcdOfFirst, SumOfFirst;
    var g, n := Divisor(w), |ALL_ARMS|;
    forall i | 0 <= i < n ensures Divides(g, w[ALL_ARMS[i]]) {
      DivisorDividesEach(w, n, i);
    }
    DivisorDividesTheSum(w, n, g);
    var i := ArmPosition(arm);
    assert Divides(g, w[ALL_ARMS[i]]);
    DividesEvenly(PERMILLE_TOTAL, g);
    DividesEvenly(w[arm], g);
  }

  /** A block of `m` cases can hold the declared ratios exactly if and only if `m` is a
      multiple of the block size: it is the smallest that can. */
  lemma BlockSizeIsTheSmallestExact(w: Weights, m: nat)
    requires ValidWeights(w)
    ensures BlockSize(w) > 0
    ensures (forall arm: Arm :: (m * w[arm]) % PERMILLE_TOTAL == 0) <==> m % BlockSize(w) == 0
  {
    var g, size, n := Divisor(w), BlockSize(w), |ALL_ARMS|;
    BlocksAreExact(w, A0);
    if forall arm: Arm :: (m * w[arm]) % PERMILLE_TOTAL == 0 {
      forall i | 0 <= i < n ensures Divides(PERMILLE_TOTAL, m * w[ALL_ARMS[i]]) {
        assert (m * w[ALL_ARMS[i]]) % PERMILLE_TOTAL == 0;
      }
      DivisorIsGreatest(w, n, PERMILLE_TOTAL, m);
      CancelDivisor(m, g, size);
    }
    if m % size == 0 {
      forall arm: Arm ensures (m * w[arm]) % PERMILLE_TOTAL == 0 {
        BlocksAreExact(w, arm);
        var t, k := m / size, Copies(w, arm);
        assert m * w[arm] == PERMILLE_TOTAL * (t * k) by {
          RemainderIsACombination(m, size);
          assert m * w[arm] == (size * t) * (k * g);
          assert (size * t) * (k * g) == (size * g) * (t * k);
        }
        ModUnique(PERMILLE_TOTAL, t * k, 0);
      }
    }
  }

}
