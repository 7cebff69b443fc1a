/**
 Arm assignment (reclaim/contracts/experiment.py): the cumulative walk of the hash draw,
 and permuted blocks with their exact balance.
 */
module BlockAssignment {
  import opened Wrappers
  import opened Vocabulary
  import opened Divisibility
  import opened Experiment
  import opened Shuffling

  // ------------------------------------------------------------ one block

  function Repeat(arm: Arm, k: nat): (r: seq<Arm>)
    ensures |r| == k
  {
    if k == 0 then [] else Repeat(arm, k - 1) + [arm]
  }

  function PatternOfFirst(w: Weights, n: nat): seq<Arm>
    requires ValidWeights(w) && n <= |ALL_ARMS|
  {
    if n == 0 then [] else PatternOfFirst(w, n - 1) + Repeat(ALL_ARMS[n - 1], Copies(w, ALL_ARMS[n - 1]))
  }

  function Pattern(w: Weights): seq<Arm>
    requires ValidWeights(w)
  {
    PatternOfFirst(w, |ALL_ARMS|)
  }

  method BlockPattern(w: Weights) returns (pattern: seq<Arm>)
    requires ValidWeights(w)
    ensures pattern == Pattern(w)
    ensures |pattern| == BlockSize(w)
    ensures forall arm :: multiset(pattern)[arm] == Copies(w, arm)
    ensures IsPattern(w, pattern)
  {
    hide IsPattern;
    pattern := [];
    var n := 0;
    while n < |ALL_ARMS|
      invariant 0 <= n <= |ALL_ARMS|
      invariant pattern == PatternOfFirst(w, n)
    {
      pattern := pattern + Repeat(ALL_ARMS[n], Copies(w, ALL_ARMS[n]));
      n := n + 1;
    }
    PatternIsExact(w);
    PatternFollowsTheWalk(w);
  }

  lemma {:induction false} RepeatCounts(arm: Arm, k: nat, x: Arm)
    ensures multiset(Repeat(arm, k))[x] == if x == arm then k else 0
  {
    if k > 0 {
      RepeatCounts(arm, k - 1, x);
      assert multiset(Repeat(arm, k)) == multiset(Repeat(arm, k - 1)) + multiset{arm};
    }
  }

  lemma CountsAdd(a: seq<Arm>, b: seq<Arm>, x: Arm)
    ensures multiset(a + b)[x] == multiset(a)[x] + multiset(b)[x]
  {
  }

  lemma ListedBefore(arms: seq<Arm>, n: nat, x: Arm)
    requires 0 < n <= |arms|
    ensures x in arms[..n] <==> x in arms[..n - 1] || x == arms[n - 1]
  {
    assert arms[..n] == arms[..n - 1] + [arms[n - 1]];
  }

  lemma EmptyPattern(w: Weights)
    requires ValidWeights(w)
    ensures PatternOfFirst(w, 0) == []
  {
  }

  lemma PatternGrows(w: Weights, n: nat)
    requires ValidWeights(w) && 0 < n <= |ALL_ARMS|
    ensures PatternOfFirst(w, n) == PatternOfFirst(w, n - 1) + Repeat(ALL_ARMS[n - 1], Copies(w, ALL_ARMS[n - 1]))
  {
  }

  lemma {:induction false} PatternCounts(w: Weights, n: nat, x: Arm)
    requires ValidWeights(w) && n <= |ALL_ARMS|
    ensures multiset(PatternOfFirst(w, n))[x] == if x in ALL_ARMS[..n] then Copies(w, x) else 0
  {
    hide Copies, Repeat, ValidWeights, PatternOfFirst;
    if n == 0 {
      EmptyPattern(w);
    } else {
      var arm := ALL_ARMS[n - 1];
      PatternGrows(w, n);
      PatternCounts(w, n - 1, x);
      RepeatCounts(arm, Copies(w, arm), x);
      CountsAdd(PatternOfFirst(w, n - 1), Repeat(arm, Copies(w, arm)), x);
      ListedBefore(ALL_ARMS, n, x);
      ArmsDiffer(n - 1);
    }
  }

  lemma ArmsDiffer(n: nat)
    requires n < |ALL_ARMS|
    ensures ALL_ARMS[n] !in ALL_ARMS[..n]
  {
  }

  lemma {:induction false} PatternLength(w: Weights, n: nat)
    requires ValidWeights(w) && n <= |ALL_ARMS|
    ensures |PatternOfFirst(w, n)| * Divisor(w) == SumOfFirst(w, n)
  {
    hide Copies, Repeat, Divisor, BlockSize, ValidWeights;
    if n > 0 {
      PatternLength(w, n - 1);
      var arm := ALL_ARMS[n - 1];
      BlocksAreExact(w, arm);
      SumTimes(|PatternOfFirst(w, n - 1)|, Copies(w, arm), Divisor(w));
    }
  }

  lemma SumTimes(a: nat, b: nat, g: nat)
    ensures (a + b) * g == a * g + b * g
  {
  }

  /** The pattern has exactly the block size and exactly each arm's copies. */
  lemma PatternIsExact(w: Weights)
    requires ValidWeights(w)
    ensures |Pattern(w)| == BlockSize(w) > 0
    ensures forall arm :: multiset(Pattern(w))[arm] == Copies(w, arm)
  {
    PatternLength(w, |ALL_ARMS|);
    BlocksAreExact(w, A0);
    SameProductSameFactor(Divisor(w), |Pattern(w)|, BlockSize(w));
    forall arm ensures multiset(Pattern(w))[arm] == Copies(w, arm) {
      PatternCounts(w, |ALL_ARMS|, arm);
      EveryArmIsListed(arm);
      assert ALL_ARMS[..|ALL_ARMS|] == ALL_ARMS;
    }
  }

  lemma SameProductSameFactor(g: nat, a: nat, b: nat)
    requires g > 0 && a * g == b * g
    ensures a == b
  {
    assert g * (a - b) == 0 by {
      assert g * (a - b) == g * a - g * b;
    }
    SmallMultipleIsZero(g, a - b);
  }

  /** The block before it is shuffled: place `i` holds the arm the cumulative walk gives the
      draw `i * g`, where `g` is the divisor, so that the arms stand in their order. */
  ghost predicate IsPattern(w: Weights, pattern: seq<Arm>)
    requires ValidWeights(w)
  {
    && |pattern| == BlockSize(w)
    && forall i, n :: 0 <= i < |pattern| && 0 <= n < |ALL_ARMS| && Owns(w, n, i * Divisor(w)) ==> pattern[i] == ALL_ARMS[n]
  }

  lemma RepeatIsUniform(arm: Arm, k: nat)
    ensures forall i :: 0 <= i < k ==> Repeat(arm, k)[i] == arm
  {
  }

  /** The place's owner among the first `n` arms. */
  predicate HeldBy(w: Weights, n: nat, i: nat)
    requires ValidWeights(w) && n <= |ALL_ARMS| && i < |PatternOfFirst(w, n)|
  {
    exists m :: 0 <= m < n && Owns(w, m, i * Divisor(w)) && PatternOfFirst(w, n)[i] == ALL_ARMS[m]
  }

  lemma LastSegment(w: Weights, n: nat, i: nat)
    requires ValidWeights(w) && 0 < n <= |ALL_ARMS|
    requires |PatternOfFirst(w, n - 1)| <= i < |PatternOfFirst(w, n)|
    ensures Owns(w, n - 1, i * Divisor(w)) && PatternOfFirst(w, n)[i] == ALL_ARMS[n - 1]
  {
    hide Copies, Repeat, Divisor, ValidWeights, PatternOfFirst;
    var arm, before, g := ALL_ARMS[n - 1], |PatternOfFirst(w, n - 1)|, Divisor(w);
    PatternGrows(w, n);
    PatternLength(w, n - 1);
    BlocksAreExact(w, arm);
    RepeatIsUniform(arm, Copies(w, arm));
    TimesKeepsOrder(g, before, i);
    TimesKeepsStrictOrder(g, i, before + Copies(w, arm));
    SumTimes(before, Copies(w, arm), g);
  }

  lemma TimesKeepsOrder(g: nat, a: nat, b: nat)
    requires a <= b
    ensures a * g <= b * g
  {
  }

  lemma TimesKeepsStrictOrder(g: nat, a: nat, b: nat)
    requires a < b && g > 0
    ensures a * g < b * g
  {
  }

  lemma {:induction false} EveryPlaceIsHeld(w: Weights, n: nat, i: nat)
    requires ValidWeights(w) && n <= |ALL_ARMS| && i < |PatternOfFirst(w, n)|
    ensures HeldBy(w, n, i)
  {
    hide Copies, Repeat, Divisor, ValidWeights, PatternOfFirst, Owns;
    if n == 0 {
      EmptyPattern(w);
    } else if i < |PatternOfFirst(w, n - 1)| {
      EveryPlaceIsHeld(w, n - 1, i);
      PatternGrows(w, n);
    } else {
      LastSegment(w, n, i);
    }
  }

  /** The two assigners agree: the pattern is the walk of the independent draw, sampled. */
  lemma PatternFollowsTheWalk(w: Weights)
    requires ValidWeights(w)
    ensures IsPattern(w, Pattern(w))
  {
    hide Owns, PatternOfFirst, Divisor, BlockSize, ValidWeights;
    PatternIsExact(w);
    ValidWeightsList(w);
    var pattern := Pattern(w);
    forall i, n | 0 <= i < |pattern| && 0 <= n < |ALL_ARMS| && Owns(w, n, i * Divisor(w)) ensures pattern[i] == ALL_ARMS[n] {
      EveryPlaceIsHeld(w, |ALL_ARMS|, i);
      var m :| 0 <= m < |ALL_ARMS| && Owns(w, m, i * Divisor(w)) && pattern[i] == ALL_ARMS[m];
      OwnersAreUnique(w, n, m, i * Divisor(w));
    }
  }

  lemma ValidWeightsList(w: Weights)
    requires ValidWeights(w)
    ensures forall a: Arm :: a in w
  {
  }

  // ------------------------------------------------------------ permuted blocks

  /** One seed for each block index, as hashed from the salt, the stratum and the index. */
  type Seeds = nat -> Digest32

  function PermutedBlock(w: Weights, seed: Digest32, rehash: Rehash): (block: seq<Arm>)
    requires ValidWeights(w)
    ensures |block| == BlockSize(w) > 0
    ensures multiset(block) == multiset(Pattern(w))
  {
    PatternIsExact(w);
    var js := Choices(seed, rehash, BlockSize(w));
    ShuffleIsAPermutation(Pattern(w), BlockSize(w) - 1, js);
    Shuffle(Pattern(w), BlockSize(w) - 1, js)
  }

  /** The rank within the stratum picks the block and the place in it. */
  function AssignBlocked(w: Weights, seeds: Seeds, rehash: Rehash, rank: nat): Arm
    requires ValidWeights(w)
  {
    PatternIsExact(w);
    PermutedBlock(w, seeds(rank / BlockSize(w)), rehash)[rank % BlockSize(w)]
  }

  /** The arm a rank draws: the rank picks a block and a place, the block's bytes shuffle its
      pattern, and the arm stands at the place when the shuffle is over. */
  ghost predicate Draws(w: Weights, seeds: Seeds, rehash: Rehash, rank: nat, arm: Arm)
    requires ValidWeights(w)
  {
    exists pattern, order :: DrawsFrom(w, seeds, rehash, rank, arm, pattern, order)
  }

  ghost predicate DrawsFrom(w: Weights, seeds: Seeds, rehash: Rehash, rank: nat, arm: Arm, pattern: seq<Arm>, order: seq<Arm>)
    requires ValidWeights(w)
  {
    && BlockSize(w) > 0 && |order| == BlockSize(w) && IsPattern(w, pattern)
    && ShuffledInto(pattern, order, seeds(rank / BlockSize(w)), rehash)
    && arm == order[rank % BlockSize(w)]
  }

  method AssignArmBlocked(w: Weights, seeds: Seeds, rehash: Rehash, rank: int) returns (arm: Option<Arm>)
    requires ValidWeights(w)
    ensures arm == if rank < 0 then None else Some(AssignBlocked(w, seeds, rehash, rank))
    ensures rank >= 0 ==> Draws(w, seeds, rehash, rank, arm.value)
  {
    hide ShuffledInto, IsPattern, Shuffle, Choices, Pattern, BlockSize, Copies, ValidWeights;
    if rank < 0 {
      return None;
    }
    var pattern := BlockPattern(w);
    PatternIsExact(w);
    var items := new Arm[|pattern|](i requires 0 <= i < |pattern| => pattern[i]);
    assert items[..] == pattern;
    ghost var start := items[..];
    ShuffleInPlace(items, seeds(rank / BlockSize(w)), rehash);
    assert items[..] == PermutedBlock(w, seeds(rank / BlockSize(w)), rehash);
    assert DrawsFrom(w, seeds, rehash, rank, items[..][rank % BlockSize(w)], start, items[..]);
    return Some(items[..][rank % BlockSize(w)]);
  }

  // ------------------------------------------------------------ balance of every prefix

  /** How many of the first `n` ranks of the stratum go to the arm. */
  function CountAssigned(w: Weights, seeds: Seeds, rehash: Rehash, arm: Arm, n: nat): nat
    requires ValidWeights(w)
  {
    if n == 0 then 0
    else
      CountAssigned(w, seeds, rehash, arm, n - 1)
      + (if AssignBlocked(w, seeds, rehash, n - 1) == arm then 1 else 0)
  }

  function InPrefix(w: Weights, seed: Digest32, rehash: Rehash, arm: Arm, r: nat): nat
    requires ValidWeights(w) && r <= BlockSize(w)
  {
    multiset(PermutedBlock(w, seed, rehash)[..r])[arm]
  }

  lemma RankSplits(size: nat, q: nat, r: nat)
    requires r < size
    ensures (q * size + r) / size == q && (q * size + r) % size == r
  {
    ModUnique(size, q, r);
    assert size * q == q * size;
  }

  lemma NextInPrefix(w: Weights, seeds: Seeds, rehash: Rehash, arm: Arm, q: nat, r: nat)
    requires ValidWeights(w) && r < BlockSize(w)
    ensures InPrefix(w, seeds(q), rehash, arm, r + 1)
         == InPrefix(w, seeds(q), rehash, arm, r)
            + (if AssignBlocked(w, seeds, rehash, q * BlockSize(w) + r) == arm then 1 else 0)
  {
    hide Shuffle, Choices, Pattern;
    RankSplits(BlockSize(w), q, r);
    var block := PermutedBlock(w, seeds(q), rehash);
    assert block[..r + 1] == block[..r] + [block[r]];
    assert multiset(block[..r + 1]) == multiset(block[..r]) + multiset{block[r]};
  }

  lemma WholeBlock(w: Weights, seed: Digest32, rehash: Rehash, arm: Arm)
    requires ValidWeights(w)
    ensures InPrefix(w, seed, rehash, arm, BlockSize(w)) == Copies(w, arm)
  {
    PatternIsExact(w);
    var block := PermutedBlock(w, seed, rehash);
    assert block[..|block|] == block;
  }

  /** Full blocks are exact whatever the bytes; only the open block counts otherwise. */
  lemma {:induction false} CountByBlocks(w: Weights, seeds: Seeds, rehash: Rehash, arm: Arm, q: nat, r: nat)
    requires ValidWeights(w) && r <= BlockSize(w)
    ensures CountAssigned(w, seeds, rehash, arm, q * BlockSize(w) + r)
         == q * Copies(w, arm) + InPrefix(w, seeds(q), rehash, arm, r)
    decreases q, r
  {
    hide PermutedBlock, AssignBlocked, BlockSize, Copies, Divisor, ValidWeights, Pattern, CountAssigned, InPrefix;
    if r > 0 {
      CountGrows(w, seeds, rehash, arm, q * BlockSize(w) + r - 1);
      CountByBlocks(w, seeds, rehash, arm, q, r - 1);
      NextInPrefix(w, seeds, rehash, arm, q, r - 1);
    } else if q > 0 {
      PatternIsExact(w);
      CountByBlocks(w, seeds, rehash, arm, q - 1, BlockSize(w));
      WholeBlock(w, seeds(q - 1), rehash, arm);
      OneMoreFactor(q, BlockSize(w));
      OneMoreFactor(q, Copies(w, arm));
      NothingInPrefix(w, seeds(q), rehash, arm);
    } else {
      NothingInPrefix(w, seeds(0), rehash, arm);
      NothingAssigned(w, seeds, rehash, arm);
    }
  }

  lemma CountGrows(w: Weights, seeds: Seeds, rehash: Rehash, arm: Arm, n: nat)
    requires ValidWeights(w)
    ensures CountAssigned(w, seeds, rehash, arm, n + 1)
         == CountAssigned(w, seeds, rehash, arm, n) + (if AssignBlocked(w, seeds, rehash, n) == arm then 1 else 0)
  {
    hide AssignBlocked;
  }

  lemma NothingAssigned(w: Weights, seeds: Seeds, rehash: Rehash, arm: Arm)
    requires ValidWeights(w)
    ensures CountAssigned(w, seeds, rehash, arm, 0) == 0
  {
  }

  lemma NothingInPrefix(w: Weights, seed: Digest32, rehash: Rehash, arm: Arm)
    requires ValidWeights(w)
    ensures InPrefix(w, seed, rehash, arm, 0) == 0
  {
    hide PermutedBlock;
    assert |PermutedBlock(w, seed, rehash)[..0]| == 0;
  }

  lemma OneMoreFactor(q: nat, x: nat)
    requires q > 0
    ensures q * x == (q - 1) * x + x
  {
  }

  /** In the first `r` places of a block: at most the copies, at most the places, and no
      fewer than the remaining places force. */
  lemma PrefixBounds(w: Weights, seed: Digest32, rehash: Rehash, arm: Arm, r: nat)
    requires ValidWeights(w) && r <= BlockSize(w)
    ensures var c := InPrefix(w, seed, rehash, arm, r);
            c <= r && c <= Copies(w, arm) && Copies(w, arm) - c <= BlockSize(w) - r
  {
    WholeBlock(w, seed, rehash, arm);
    var block := PermutedBlock(w, seed, rehash);
    assert block == block[..r] + block[r..];
    assert multiset(block) == multiset(block[..r]) + multiset(block[r..]);
    assert block[..|block|] == block;
    CountWithinLength(block[..r], arm);
    CountWithinLength(block[r..], arm);
  }

  lemma {:induction false} CountWithinLength(s: seq<Arm>, arm: Arm)
    ensures multiset(s)[arm] <= |s|
  {
    if s != [] {
      CountWithinLength(s[..|s| - 1], arm);
      assert s == s[..|s| - 1] + [s[|s| - 1]];
      assert multiset(s) == multiset(s[..|s| - 1]) + multiset{s[|s| - 1]};
    }
  }

  function Abs(x: int): int {
    if x < 0 then -x else x
  }

  lemma ProductGrows(a: nat, x: nat, y: nat)
    requires x <= y
    ensures a * x <= a * y
  {
    assert a * y == a * x + a * (y - x);
  }

  lemma AheadEarly(size: nat, k: nat, r: nat, c: nat)
    requires c <= r <= k <= size
    ensures size * c - r * k <= k * (size - k)
  {
    ProductGrows(size, c, r);
    ProductGrows(size - k, r, k);
    assert size * r - r * k == (size - k) * r;
    assert (size - k) * k == k * (size - k);
  }

  lemma AheadLate(size: nat, k: nat, r: nat, c: nat)
    requires c <= k <= r <= size
    ensures size * c - r * k <= k * (size - k)
  {
    ProductGrows(size, c, k);
    ProductGrows(k, size - r, size - k);
    assert size * k - r * k == k * (size - r);
  }

  lemma BehindEarly(size: nat, k: nat, r: nat, c: nat)
    requires k <= size - r && r <= size
    ensures r * k - size * c <= k * (size - k)
  {
    ProductGrows(k, r, size - k);
    assert r * k == k * r;
    assert size * c >= 0;
  }

  lemma BehindLate(size: nat, k: nat, r: nat, c: nat)
    requires r <= size && size - r <= k <= size && k - c <= size - r
    ensures r * k - size * c <= k * (size - k)
  {
    var least := k - (size - r);
    ProductGrows(size, least, c);
    ProductGrows(size - k, size - r, k);
    LateSlack(size, k, r);
    assert (size - k) * k == k * (size - k);
  }

  lemma LateSlack(size: int, k: int, r: int)
    ensures r * k - size * (k - (size - r)) == (size - k) * (size - r)
  {
    assert size * (k - (size - r)) == size * k - size * size + size * r;
    assert (size - k) * (size - r) == size * size - size * r - k * size + k * r;
    assert k * size == size * k && k * r == r * k;
  }

  /** The bound on the open block: ahead or behind, before or after it turns. */
  lemma OpenBlockBound(size: nat, k: nat, r: nat, c: nat)
    requires c <= r <= size && c <= k <= size && k - c <= size - r
    ensures Abs(size * c - r * k) <= k * (size - k)
  {
    if r <= k {
      AheadEarly(size, k, r, c);
    } else {
      AheadLate(size, k, r, c);
    }
    if k <= size - r {
      BehindEarly(size, k, r, c);
    } else {
      BehindLate(size, k, r, c);
    }
  }

  /** The whole blocks cancel. */
  lemma WholeBlocksCancel(size: int, k: int, q: int, r: int, c: int)
    ensures size * (q * k + c) - (q * size + r) * k == size * c - r * k
  {
    assert size * (q * k + c) == size * (q * k) + size * c;
    assert (q * size + r) * k == (q * size) * k + r * k;
    assert size * (q * k) == (q * size) * k;
  }

  /** For every prefix of every stratum, with block size B and k copies of the arm in a
      block: |B * count - n * k| <= k * (B - k). At block boundaries the count is exact. */
  lemma EveryPrefixIsBalanced(w: Weights, seeds: Seeds, rehash: Rehash, arm: Arm, n: nat)
    requires ValidWeights(w)
    ensures var size, k, count := BlockSize(w), Copies(w, arm), CountAssigned(w, seeds, rehash, arm, n);
            && size > 0
            && Abs(size * count - n * k) <= k * (size - k)
            && (n % size == 0 ==> size * count == n * k)
  {
    hide PermutedBlock, CountAssigned, BlockSize, Copies, InPrefix, Divisor, ValidWeights, Pattern;
    PatternIsExact(w);
    var size, k := BlockSize(w), Copies(w, arm);
    var q, r := n / size, n % size;
    QuotientAndRemainder(n, size);
    CountByBlocks(w, seeds, rehash, arm, q, r);
    var c := InPrefix(w, seeds(q), rehash, arm, r);
    PrefixBounds(w, seeds(q), rehash, arm, r);
    PrefixBounds(w, seeds(q), rehash, arm, 0);
    WholeBlocksCancel(size, k, q, r, c);
    OpenBlockBound(size, k, r, c);
  }

  lemma QuotientAndRemainder(n: nat, size: nat)
    requires size > 0
    ensures n == (n / size) * size + n % size && n % size < size && n / size >= 0
  {
    RemainderIsACombination(n, size);
  }

  // ------------------------------------------------------------ the independent draw

  /** The walk stops at the first arm whose cumulative share exceeds the draw. It always
      stops, and the arm it stops at owns exactly `w[arm]` of the thousand draws. */
  method AssignArm(w: Weights, draw: nat) returns (arm: Arm)
    requires ValidWeights(w) && draw < PERMILLE_TOTAL
    ensures exists i :: 0 <= i < |ALL_ARMS| && arm == ALL_ARMS[i] && Owns(w, i, draw)
    ensures forall i :: 0 <= i < |ALL_ARMS| && Owns(w, i, draw) ==> arm == ALL_ARMS[i]
  {
    var cumulative := 0;
    var i := 0;
    while i < |ALL_ARMS|
      invariant 0 <= i <= |ALL_ARMS|
      invariant cumulative == SumOfFirst(w, i) <= draw
    {
      cumulative := cumulative + w[ALL_ARMS[i]];
      if draw < cumulative {
        assert Owns(w, i, draw);
        forall j | 0 <= j < |ALL_ARMS| && Owns(w, j, draw) ensures j == i {
          OwnersAreUnique(w, i, j, draw);
        }
        return ALL_ARMS[i];
      }
      i := i + 1;
    }
    assert false;
    arm := A0;
  }

  /** The half-open interval of draws that belongs to position `i`. */
  predicate Owns(w: Weights, i: nat, draw: nat)
    requires (forall a: Arm :: a in w) && i < |ALL_ARMS|
  {
    SumOfFirst(w, i) <= draw < SumOfFirst(w, i) + w[ALL_ARMS[i]]
  }

  lemma {:induction false} CumulativeGrows(w: Weights, i: nat, j: nat)
    requires (forall a: Arm :: a in w) && i <= j <= |ALL_ARMS|
    ensures SumOfFirst(w, i) <= SumOfFirst(w, j)
    decreases j
  {
    if i < j {
      CumulativeGrows(w, i, j - 1);
    }
  }

  lemma OwnersAreUnique(w: Weights, i: nat, j: nat, draw: nat)
    requires (forall a: Arm :: a in w) && i < |ALL_ARMS| && j < |ALL_ARMS|
    requires Owns(w, i, draw) && Owns(w, j, draw)
    ensures i == j
  {
    if i < j {
      CumulativeGrows(w, i + 1, j);
    } else if j < i {
      CumulativeGrows(w, j + 1, i);
    }
  }
}
