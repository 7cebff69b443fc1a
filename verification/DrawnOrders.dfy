/**
 What the bytes can do to a block (reclaim/contracts/experiment.py): they decide the arm of
 every rank, and any order of the block's pattern can be drawn.
 */
module DrawnOrders {
  import opened Vocabulary
  import opened Divisibility
  import opened Experiment
  import opened Shuffling
  import opened BlockAssignment

  // ------------------------------------------------------------ one arm for each rank

  lemma {:induction false} FirstAbove(w: Weights, draw: nat, n: nat) returns (m: nat)
    requires (forall a: Arm :: a in w) && n <= |ALL_ARMS| && draw < SumOfFirst(w, n)
    ensures m < n && Owns(w, m, draw)
  {
    if draw < SumOfFirst(w, n - 1) {
      m := FirstAbove(w, draw, n - 1);
    } else {
      m := n - 1;
    }
  }

  lemma DrawHasAnOwner(w: Weights, draw: nat) returns (n: nat)
    requires ValidWeights(w) && draw < PERMILLE_TOTAL
    ensures n < |ALL_ARMS| && Owns(w, n, draw)
  {
    n := FirstAbove(w, draw, |ALL_ARMS|);
  }

  lemma PlaceIsADraw(w: Weights, i: nat)
    requires ValidWeights(w) && i < BlockSize(w)
    ensures i * Divisor(w) < PERMILLE_TOTAL
  {
    BlocksAreExact(w, A0);
    TimesKeepsStrictOrder(Divisor(w), i, BlockSize(w));
  }

  /** The pattern is settled by the weights. */
  lemma OnePattern(w: Weights, x: seq<Arm>, y: seq<Arm>)
    requires ValidWeights(w) && IsPattern(w, x) && IsPattern(w, y)
    ensures x == y
  {
    forall i | 0 <= i < |x| ensures x[i] == y[i] {
      PlaceIsADraw(w, i);
      var n := DrawHasAnOwner(w, i * Divisor(w));
      assert x[i] == ALL_ARMS[n] && y[i] == ALL_ARMS[n];
    }
  }

  /** A rank draws one arm only: the bytes leave nothing open. */
  lemma OneArm(w: Weights, seeds: Seeds, rehash: Rehash, rank: nat, a: Arm, b: Arm)
    requires ValidWeights(w) && Draws(w, seeds, rehash, rank, a) && Draws(w, seeds, rehash, rank, b)
    ensures a == b
  {
    hide ShuffledInto, IsPattern, BlockSize, ValidWeights;
    var p, x :| DrawsFrom(w, seeds, rehash, rank, a, p, x);
    var q, y :| DrawsFrom(w, seeds, rehash, rank, b, q, y);
    OnePattern(w, p, q);
    OneShuffle(p, x, y, seeds(rank / BlockSize(w)), rehash);
  }

  // ------------------------------------------------------------ bytes for any choices

  const TOP := 16_777_216

  /** The least multiple of `k + 1` at or above `tag` in the top byte, and the choice on top
      of it: what remains on division by `k + 1` is the choice. */
  function WordFor(tag: nat, k: nat, j: nat): nat {
    ((tag * TOP + k) / (k + 1)) * (k + 1) + j
  }

  lemma WordIsRight(tag: nat, k: nat, j: nat)
    requires j <= k < 1000
    ensures WordFor(tag, k, j) % (k + 1) == j
    ensures tag * TOP <= WordFor(tag, k, j) < tag * TOP + TOP
  {
    var a, m := tag * TOP + k, k + 1;
    var q, r := a / m, a % m;
    RemainderIsACombination(a, m);
    assert q * m == m * q;
    ModUnique(m, q, j);
  }

  /** Four bytes, most significant first. */
  function ByteOf(word: nat, at: nat): nat {
    if at == 0 then word / 16_777_216
    else if at == 1 then word / 65_536 % 256
    else if at == 2 then word / 256 % 256
    else word % 256
  }

  lemma FourBytes(word: nat)
    ensures ByteOf(word, 0) * 16_777_216 + ByteOf(word, 1) * 65_536 + ByteOf(word, 2) * 256 + ByteOf(word, 3) == word
  {
  }

  /** The word for step `s` of a shuffle by the choices `js`, tagged with its block. */
  function StepWord(js: seq<nat>, tag: nat, s: nat): nat {
    if s < |js| && js[|js| - 1 - s] <= |js| - 1 - s then WordFor(tag, |js| - 1 - s, js[|js| - 1 - s]) else tag * TOP
  }

  lemma StepWordIsTagged(js: seq<nat>, tag: nat, s: nat)
    requires |js| <= 1000
    ensures StepWord(js, tag, s) / TOP == tag
    ensures s < |js| && js[|js| - 1 - s] <= |js| - 1 - s ==> StepWord(js, tag, s) % (|js| - s) == js[|js| - 1 - s]
  {
    if s < |js| && js[|js| - 1 - s] <= |js| - 1 - s {
      WordIsRight(tag, |js| - 1 - s, js[|js| - 1 - s]);
    }
  }

  /** Block `b` of the stream: eight words, the first byte of each saying which block it is. */
  function BlockOf(js: seq<nat>, b: nat): (d: Digest32)
    requires |js| <= 1000
  {
    var tag := b % 256;
    var bytes := seq(32, p requires 0 <= p < 32 => ByteOf(StepWord(js, tag, 8 * b + p / 4), p % 4));
    assert forall i :: 0 <= i < 32 ==> bytes[i] < 256 by {
      forall i | 0 <= i < 32 ensures bytes[i] < 256 {
        StepWordIsTagged(js, tag, 8 * b + i / 4);
      }
    }
    bytes
  }

  /** The hash that turns each of these blocks into the next one. */
  function NextBlock(js: seq<nat>): Rehash
    requires |js| <= 1000
  {
    (d: Digest32) => BlockOf(js, d[0] + 1)
  }

  lemma BlockIsTagged(js: seq<nat>, b: nat)
    requires |js| <= 1000 && b < 256
    ensures BlockOf(js, b)[0] == b
  {
    StepWordIsTagged(js, b, 8 * b);
  }

  lemma {:induction false} StreamIsTheBlocks(js: seq<nat>, b: nat)
    requires |js| <= 1000 && b < 256
    ensures StreamBlock(BlockOf(js, 0), NextBlock(js), b) == BlockOf(js, b)
  {
    hide BlockOf;
    if b > 0 {
      StreamIsTheBlocks(js, b - 1);
      BlockIsTagged(js, b - 1);
    }
  }

  lemma BlockHoldsItsWords(js: seq<nat>, b: nat, t: nat)
    requires |js| <= 1000 && b < 256 && t < 8
    ensures BigEndian(BlockOf(js, b), 4 * t) == StepWord(js, b, 8 * b + t)
  {
    hide StepWord, ByteOf, BlockOf;
    var word := StepWord(js, b, 8 * b + t);
    ByteOfBlock(js, b, t, 0);
    ByteOfBlock(js, b, t, 1);
    ByteOfBlock(js, b, t, 2);
    ByteOfBlock(js, b, t, 3);
    FourBytes(word);
  }

  lemma ByteOfBlock(js: seq<nat>, b: nat, t: nat, i: nat)
    requires |js| <= 1000 && b < 256 && t < 8 && i < 4
    ensures BlockOf(js, b)[4 * t + i] == ByteOf(StepWord(js, b, 8 * b + t), i)
  {
    hide StepWord, ByteOf;
    assert (4 * t + i) / 4 == t && (4 * t + i) % 4 == i && b % 256 == b;
  }

  lemma DrawnWord(js: seq<nat>, s: nat)
    requires |js| <= 1000 && s < |js|
    ensures StreamWord(BlockOf(js, 0), NextBlock(js), s) == StepWord(js, s / 8, s)
  {
    hide BlockOf, BigEndian, StepWord, StreamBlock, NextBlock;
    var b, t := s / 8, s % 8;
    assert s == 8 * b + t && b < 256 && t < 8;
    StreamIsTheBlocks(js, b);
    BlockHoldsItsWords(js, b, t);
  }

  /** Driven by these bytes the shuffle makes exactly these choices. */
  lemma ChoicesAreDrawn(js: seq<nat>)
    requires |js| <= 1000 && AreChoices(js)
    ensures Choices(BlockOf(js, 0), NextBlock(js), |js|) == js
  {
    hide BlockOf, StreamWord, StepWord, NextBlock;
    var n, drawn := |js|, Choices(BlockOf(js, 0), NextBlock(js), |js|);
    forall k | 0 <= k < n ensures drawn[k] == js[k] {
      var s := n - 1 - k;
      DrawnWord(js, s);
      StepWordIsTagged(js, s / 8, s);
      assert n - s == k + 1 && js[n - 1 - s] == js[k];
      assert drawn[k] == StreamWord(BlockOf(js, 0), NextBlock(js), s) % (k + 1);
    }
  }

  // ------------------------------------------------------------ any order of a block

  lemma SmallBlock(w: Weights)
    requires ValidWeights(w)
    ensures 0 < BlockSize(w) <= 1000
  {
    hide BlockSize, Divisor, ValidWeights;
    BlocksAreExact(w, A0);
    TimesKeepsOrder(BlockSize(w), 1, Divisor(w));
  }

  lemma ShuffleCanBeDrawn<T(!new)>(items: seq<T>, order: seq<T>) returns (seed: Digest32, rehash: Rehash)
    requires 0 < |items| <= 1000 && |order| == |items| && multiset(items) == multiset(order)
    ensures ShuffledInto(items, order, seed, rehash)
  {
    hide ShuffledInto, Shuffle, Choices, NextBlock, BlockOf;
    var n := |items|;
    assert items[..n] == items && order[..n] == order;
    var js := EveryOrderIsReached(items, order, n - 1);
    ChoicesAreDrawn(js);
    seed, rehash := BlockOf(js, 0), NextBlock(js);
    ShuffleIsTraced(items, seed, rehash);
  }

  lemma SameCounts(a: seq<Arm>, b: seq<Arm>)
    requires forall arm :: multiset(a)[arm] == multiset(b)[arm]
    ensures multiset(a) == multiset(b)
  {
  }

  /** Nothing but the counts is fixed in advance: for every block and every order of its
      arms there are bytes under which its ranks receive exactly that order. */
  lemma AnyOrderCanBeDrawn(w: Weights, order: seq<Arm>, q: nat) returns (seeds: Seeds, rehash: Rehash)
    requires ValidWeights(w)
    requires |order| == BlockSize(w) && forall arm :: multiset(order)[arm] == Copies(w, arm)
    ensures forall r :: 0 <= r < |order| ==> Draws(w, seeds, rehash, q * |order| + r, order[r])
  {
    hide ShuffledInto, IsPattern, BlockSize, ValidWeights, Copies, Pattern, Draws;
    var pattern, n := Pattern(w), BlockSize(w);
    SmallBlock(w);
    PatternIsExact(w);
    PatternFollowsTheWalk(w);
    SameCounts(pattern, order);
    var seed;
    seed, rehash := ShuffleCanBeDrawn(pattern, order);
    seeds := (block: nat) => seed;
    forall r | 0 <= r < n ensures Draws(w, seeds, rehash, q * n + r, order[r]) {
      RankSplits(n, q, r);
      DrawnFrom(w, seeds, rehash, q * n + r, order[r], pattern, order);
    }
  }

  lemma DrawnFrom(w: Weights, seeds: Seeds, rehash: Rehash, rank: nat, arm: Arm, pattern: seq<Arm>, order: seq<Arm>)
    requires ValidWeights(w) && DrawsFrom(w, seeds, rehash, rank, arm, pattern, order)
    ensures Draws(w, seeds, rehash, rank, arm)
  {
    hide DrawsFrom;
  }

  // ------------------------------------------------------------ balance of what is drawn

  lemma AssignedIsDrawn(w: Weights, seeds: Seeds, rehash: Rehash, rank: nat)
    requires ValidWeights(w)
    ensures Draws(w, seeds, rehash, rank, AssignBlocked(w, seeds, rehash, rank))
  {
    hide ShuffledInto, IsPattern, Shuffle, Choices, ValidWeights, Draws;
    PatternIsExact(w);
    PatternFollowsTheWalk(w);
    ShuffleIsTraced(Pattern(w), seeds(rank / BlockSize(w)), rehash);
    var order := PermutedBlock(w, seeds(rank / BlockSize(w)), rehash);
    DrawnFrom(w, seeds, rehash, rank, order[rank % BlockSize(w)], Pattern(w), order);
  }

  lemma {:induction false} DrawnAreCounted(w: Weights, seeds: Seeds, rehash: Rehash, arms: seq<Arm>, arm: Arm)
    requires ValidWeights(w)
    requires forall i :: 0 <= i < |arms| ==> Draws(w, seeds, rehash, i, arms[i])
    ensures multiset(arms)[arm] == CountAssigned(w, seeds, rehash, arm, |arms|)
  {
    hide Draws, ValidWeights, AssignBlocked, CountAssigned;
    if |arms| == 0 {
      NothingAssigned(w, seeds, rehash, arm);
    } else {
      var n := |arms| - 1;
      DrawnAreCounted(w, seeds, rehash, arms[..n], arm);
      AssignedIsDrawn(w, seeds, rehash, n);
      OneArm(w, seeds, rehash, n, arms[n], AssignBlocked(w, seeds, rehash, n));
      CountGrows(w, seeds, rehash, arm, n);
      assert arms == arms[..n] + [arms[n]];
      assert multiset(arms) == multiset(arms[..n]) + multiset{arms[n]};
    }
  }

  /** The arms the first ranks of any stratum draw, whatever the bytes: off the declared
      share by at most k * (B - k) / B cases, and exact at every block boundary. */
  lemma DrawnRanksAreBalanced(w: Weights, seeds: Seeds, rehash: Rehash, arms: seq<Arm>, arm: Arm)
    requires ValidWeights(w)
    requires forall i :: 0 <= i < |arms| ==> Draws(w, seeds, rehash, i, arms[i])
    ensures var size, k, count := BlockSize(w), Copies(w, arm), multiset(arms)[arm];
            && size > 0
            && -(k * (size - k)) <= size * count - |arms| * k <= k * (size - k)
            && (|arms| % size == 0 ==> size * count == |arms| * k)
  {
    hide Draws, ValidWeights, CountAssigned, BlockSize, Copies;
    DrawnAreCounted(w, seeds, rehash, arms, arm);
    EveryPrefixIsBalanced(w, seeds, rehash, arm, |arms|);
  }
}
