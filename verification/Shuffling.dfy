/**
 Fisher-Yates (reclaim/contracts/experiment.py, `_permuted_block`): an in-place shuffle
 driven by a moving window over a chain of hash blocks.
 */
module Shuffling {

  // ------------------------------------------------------------ what the swaps do

  function Swap<T>(items: seq<T>, i: nat, j: nat): (r: seq<T>)
    requires i < |items| && j < |items|
    ensures |r| == |items| && r[i] == items[j] && r[j] == items[i]
    ensures forall k :: 0 <= k < |items| && k != i && k != j ==> r[k] == items[k]
  {
    items[i := items[j]][j := items[i]]
  }

  lemma SwapKeepsItems<T>(items: seq<T>, i: nat, j: nat)
    requires i < |items| && j < |items|
    ensures multiset(Swap(items, i, j)) == multiset(items)
  {
  }

  /** One choice for each position, at or below it. */
  predicate AreChoices(js: seq<nat>) {
    forall k :: 0 <= k < |js| ==> js[k] <= k
  }

  /** Swap position `i`, then `i - 1`, down to 1, each with its choice. */
  function Shuffle<T>(items: seq<T>, i: nat, js: seq<nat>): (r: seq<T>)
    requires |js| == |items| && AreChoices(js) && (i < |items| || i == 0)
    ensures |r| == |items|
    decreases i
  {
    if i == 0 then items else Shuffle(Swap(items, i, js[i]), i - 1, js)
  }

  lemma {:induction false} ShuffleIsAPermutation<T>(items: seq<T>, i: nat, js: seq<nat>)
    requires |js| == |items| && AreChoices(js) && (i < |items| || i == 0)
    ensures multiset(Shuffle(items, i, js)) == multiset(items)
    decreases i
  {
    hide Swap;
    if i > 0 {
      SwapKeepsItems(items, i, js[i]);
      ShuffleIsAPermutation(Swap(items, i, js[i]), i - 1, js);
    }
  }

  /** Positions above `i` are settled. */
  lemma {:induction false} SettledStaysSettled<T>(items: seq<T>, i: nat, js: seq<nat>, k: nat)
    requires |js| == |items| && AreChoices(js) && i < k < |items|
    ensures Shuffle(items, i, js)[k] == items[k]
    decreases i
  {
    hide Swap;
    if i > 0 {
      SettledStaysSettled(Swap(items, i, js[i]), i - 1, js, k);
    }
  }

  predicate Distinct<T(==)>(items: seq<T>) {
    forall i, j :: 0 <= i < j < |items| ==> items[i] != items[j]
  }

  lemma SwapKeepsDistinct<T>(items: seq<T>, i: nat, j: nat)
    requires i < |items| && j < |items| && Distinct(items)
    ensures Distinct(Swap(items, i, j))
  {
    var r := Swap(items, i, j);
    forall a, b | 0 <= a < b < |r| ensures r[a] != r[b] {
      var a' := if a == i then j else if a == j then i else a;
      var b' := if b == i then j else if b == j then i else b;
      assert r[a] == items[a'] && r[b] == items[b'] && a' != b';
      assert items[if a' < b' then a' else b'] != items[if a' < b' then b' else a'];
    }
  }

  lemma SameItemSamePlace<T>(items: seq<T>, a: nat, b: nat)
    requires Distinct(items) && a < |items| && b < |items| && items[a] == items[b]
    ensures a == b
  {
  }

  /** Different choices give different orders of distinct items. */
  lemma {:induction false} NoOrderIsReachedTwice<T>(items: seq<T>, i: nat, js: seq<nat>, ks: seq<nat>)
    requires |js| == |ks| == |items| && AreChoices(js) && AreChoices(ks) && (i < |items| || i == 0)
    requires Distinct(items) && Shuffle(items, i, js) == Shuffle(items, i, ks)
    ensures forall k :: 1 <= k <= i ==> js[k] == ks[k]
    decreases i
  {
    hide Swap, Distinct;
    if i > 0 {
      SettledStaysSettled(Swap(items, i, js[i]), i - 1, js, i);
      SettledStaysSettled(Swap(items, i, ks[i]), i - 1, ks, i);
      assert items[js[i]] == items[ks[i]];
      SameItemSamePlace(items, js[i], ks[i]);
      SwapKeepsDistinct(items, i, js[i]);
      NoOrderIsReachedTwice(Swap(items, i, js[i]), i - 1, js, ks);
    }
  }

  lemma PrefixOfSwap<T>(items: seq<T>, i: nat, j: nat)
    requires j <= i < |items|
    ensures multiset(Swap(items, i, j)[..i]) == multiset(items[..i + 1]) - multiset{items[j]}
  {
    var r := Swap(items, i, j);
    var before := items[..i + 1];
    assert r[..i + 1] == Swap(before, i, j);
    SwapKeepsItems(before, i, j);
    assert r[..i + 1] == r[..i] + [items[j]];
    assert multiset(r[..i + 1]) == multiset(r[..i]) + multiset{items[j]};
  }

  lemma PlaceOf<T>(items: seq<T>, target: seq<T>, i: nat) returns (j: nat)
    requires i < |items| == |target|
    requires multiset(items[..i + 1]) == multiset(target[..i + 1])
    ensures j <= i && items[j] == target[i]
  {
    assert target[..i + 1][i] in multiset(items[..i + 1]);
    j :| 0 <= j < i + 1 && items[..i + 1][j] == target[i];
  }

  lemma RestStillMatches<T>(items: seq<T>, target: seq<T>, i: nat, j: nat)
    requires j <= i < |items| == |target| && items[j] == target[i]
    requires multiset(items[..i + 1]) == multiset(target[..i + 1])
    ensures multiset(Swap(items, i, j)[..i]) == multiset(target[..i])
  {
    PrefixOfSwap(items, i, j);
    assert target[..i + 1] == target[..i] + [target[i]];
    assert multiset(target[..i + 1]) == multiset(target[..i]) + multiset{target[i]};
  }

  /** Every order of the items is reached by some choices: with `NoOrderIsReachedTwice`,
      uniform choices make every order of distinct items equally likely. */
  lemma {:induction false} EveryOrderIsReached<T>(items: seq<T>, target: seq<T>, i: nat) returns (js: seq<nat>)
    requires |items| == |target| && (i < |items| || i == 0)
    requires forall k :: i < k < |items| ==> items[k] == target[k]
    requires items != [] ==> multiset(items[..i + 1]) == multiset(target[..i + 1])
    ensures |js| == |items| && AreChoices(js)
    ensures Shuffle(items, i, js) == target
    decreases i
  {
    hide Swap;
    if i == 0 {
      js := seq(|items|, _ => 0);
      if items != [] {
        assert items[..1] == [items[0]] && target[..1] == [target[0]];
        assert items[0] in multiset(target[..1]);
      }
      assert items == target;
    } else {
      var j := PlaceOf(items, target, i);
      var next := Swap(items, i, j);
      RestStillMatches(items, target, i, j);
      var lower := EveryOrderIsReached(next, target, i - 1);
      js := lower[i := j];
      LaterChoicesDoNotMatter(next, i - 1, lower, js);
    }
  }

  lemma {:induction false} LaterChoicesDoNotMatter<T>(items: seq<T>, i: nat, js: seq<nat>, ks: seq<nat>)
    requires |js| == |ks| == |items| && AreChoices(js) && AreChoices(ks) && (i < |items| || i == 0)
    requires forall k :: 1 <= k <= i ==> js[k] == ks[k]
    ensures Shuffle(items, i, js) == Shuffle(items, i, ks)
    decreases i
  {
    hide Swap;
    if i > 0 {
      LaterChoicesDoNotMatter(Swap(items, i, js[i]), i - 1, js, ks);
    }
  }

  // ------------------------------------------------------------ where the choices come from

  /** A hash output: 32 bytes, whatever the hash. */
  type Digest32 = d: seq<nat> | |d| == 32 && forall i :: 0 <= i < 32 ==> d[i] < 256 witness seq(32, _ => 0)

  type Rehash = Digest32 -> Digest32

  /** The chain of hash blocks the stream is extended with. */
  function StreamBlock(seed: Digest32, rehash: Rehash, b: nat): Digest32 {
    if b == 0 then seed else rehash(StreamBlock(seed, rehash, b - 1))
  }

  function BigEndian(s: Digest32, at: nat): nat
    requires at + 4 <= 32
  {
    ((s[at] * 256 + s[at + 1]) * 256 + s[at + 2]) * 256 + s[at + 3]
  }

  /** The n-th four-byte word of the stream: eight to a block, none used twice. */
  function StreamWord(seed: Digest32, rehash: Rehash, n: nat): nat {
    BigEndian(StreamBlock(seed, rehash, n / 8), 4 * (n % 8))
  }

  /** Position `k` of `n` takes the word drawn for it, reduced to `0..k`. */
  function Choices(seed: Digest32, rehash: Rehash, n: nat): (js: seq<nat>)
    ensures |js| == n && AreChoices(js)
  {
    seq(n, k requires 0 <= k < n => StreamWord(seed, rehash, n - 1 - k) % (k + 1))
  }

  // ------------------------------------------------------------ the shuffle, state by state

  /** Each block is the hash of the one before. */
  predicate HashChain(blocks: seq<Digest32>, seed: Digest32, rehash: Rehash) {
    && (|blocks| > 0 ==> blocks[0] == seed)
    && forall b :: 0 < b < |blocks| ==> blocks[b] == rehash(blocks[b - 1])
  }

  /** Only these two places are exchanged. */
  predicate Exchanged<T(==)>(was: seq<T>, now: seq<T>, i: nat, j: nat) {
    && i < |was| == |now| && j < |was| && now[i] == was[j] && now[j] == was[i]
    && forall k :: 0 <= k < |was| && k != i && k != j ==> now[k] == was[k]
  }

  /** The word at step `s`: four bytes of the block it falls in, most significant first. */
  function WordAt(blocks: seq<Digest32>, s: nat): nat
    requires s / 8 < |blocks|
  {
    var d, at := blocks[s / 8], 4 * (s % 8);
    d[at] * 16_777_216 + d[at + 1] * 65_536 + d[at + 2] * 256 + d[at + 3]
  }

  /** From `start` to `end` in |start| - 1 steps: step `s` exchanges the last place not yet
      settled with the one the s-th word of the stream names. */
  ghost predicate IsTrace<T>(states: seq<seq<T>>, blocks: seq<Digest32>, start: seq<T>, end: seq<T>, seed: Digest32,
                                 rehash: Rehash)
  {
    && |states| == |start| == |blocks| && HashChain(blocks, seed, rehash)
    && |start| > 0 && states[0] == start && states[|states| - 1] == end
    && EveryStepTraced(states, blocks)
  }

  predicate EveryStepTraced<T(==)>(states: seq<seq<T>>, blocks: seq<Digest32>) {
    |states| == |blocks| && forall s :: 0 <= s < |states| - 1 ==> StepTraced(states, blocks, s)
  }

  predicate StepTraced<T(==)>(states: seq<seq<T>>, blocks: seq<Digest32>, s: nat)
    requires s + 1 < |states| == |blocks|
  {
    Exchanged(states[s], states[s + 1], |states| - 1 - s, WordAt(blocks, s) % (|states| - s))
  }

  ghost predicate ShuffledInto<T(!new)>(start: seq<T>, end: seq<T>, seed: Digest32, rehash: Rehash) {
    exists states: seq<seq<T>>, blocks: seq<Digest32> :: IsTrace(states, blocks, start, end, seed, rehash)
  }

  function StateAfter<T>(items: seq<T>, js: seq<nat>, s: nat): (r: seq<T>)
    requires |js| == |items| && AreChoices(js) && s < |items|
    ensures |r| == |items|
  {
    if s == 0 then items else Swap(StateAfter(items, js, s - 1), |items| - s, js[|items| - s])
  }

  lemma {:induction false} ShuffleFromState<T>(items: seq<T>, js: seq<nat>, s: nat)
    requires |js| == |items| && AreChoices(js) && s < |items|
    ensures Shuffle(items, |items| - 1, js) == Shuffle(StateAfter(items, js, s), |items| - 1 - s, js)
  {
    hide Swap;
    if s > 0 {
      ShuffleFromState(items, js, s - 1);
      ShuffleStep(StateAfter(items, js, s - 1), |items| - s, js);
    }
  }

  lemma ChainOfBlocks(seed: Digest32, rehash: Rehash, blocks: seq<Digest32>)
    requires forall b :: 0 <= b < |blocks| ==> blocks[b] == StreamBlock(seed, rehash, b)
    ensures HashChain(blocks, seed, rehash)
  {
  }

  lemma SameWord(seed: Digest32, rehash: Rehash, blocks: seq<Digest32>, s: nat)
    requires forall b :: 0 <= b < |blocks| ==> blocks[b] == StreamBlock(seed, rehash, b)
    requires s / 8 < |blocks|
    ensures WordAt(blocks, s) == StreamWord(seed, rehash, s)
  {
    hide StreamBlock;
  }

  lemma SwapExchanges<T>(items: seq<T>, i: nat, j: nat)
    requires i < |items| && j < |items|
    ensures Exchanged(items, Swap(items, i, j), i, j)
  {
  }

  lemma TracedStep<T>(items: seq<T>, js: seq<nat>, s: nat, word: nat)
    requires |js| == |items| && AreChoices(js) && s + 1 < |items|
    requires js[|items| - 1 - s] == word % (|items| - s)
    ensures Exchanged(StateAfter(items, js, s), StateAfter(items, js, s + 1), |items| - 1 - s, word % (|items| - s))
  {
    hide Exchanged, Swap;
    SwapExchanges(StateAfter(items, js, s), |items| - 1 - s, js[|items| - 1 - s]);
  }

  function StatesOf<T>(items: seq<T>, js: seq<nat>): (states: seq<seq<T>>)
    requires |js| == |items| && AreChoices(js)
    ensures |states| == |items| && forall s :: 0 <= s < |items| ==> states[s] == StateAfter(items, js, s)
  {
    seq(|items|, s requires 0 <= s < |items| => StateAfter(items, js, s))
  }

  function BlocksOf(seed: Digest32, rehash: Rehash, n: nat): (blocks: seq<Digest32>)
    ensures |blocks| == n && forall b :: 0 <= b < n ==> blocks[b] == StreamBlock(seed, rehash, b)
  {
    seq(n, b requires 0 <= b < n => StreamBlock(seed, rehash, b))
  }

  lemma ChoiceIsTheWord(seed: Digest32, rehash: Rehash, n: nat, s: nat)
    requires s < n
    ensures Choices(seed, rehash, n)[n - 1 - s] == WordAt(BlocksOf(seed, rehash, n), s) % (n - s)
  {
    hide StreamBlock, BigEndian, WordAt;
    SameWord(seed, rehash, BlocksOf(seed, rehash, n), s);
  }

  lemma StatesAreTraced<T>(items: seq<T>, seed: Digest32, rehash: Rehash, s: nat)
    requires s + 1 < |items|
    ensures var n := |items|;
            StepTraced(StatesOf(items, Choices(seed, rehash, n)), BlocksOf(seed, rehash, n), s)
  {
    hide Exchanged, StateAfter, StreamBlock, WordAt, Choices;
    var n := |items|;
    var js := Choices(seed, rehash, n);
    ChoiceIsTheWord(seed, rehash, n, s);
    TracedStep(items, js, s, WordAt(BlocksOf(seed, rehash, n), s));
  }

  lemma BlocksAreChained(seed: Digest32, rehash: Rehash, n: nat)
    ensures HashChain(BlocksOf(seed, rehash, n), seed, rehash)
  {
    hide HashChain;
    ChainOfBlocks(seed, rehash, BlocksOf(seed, rehash, n));
  }

  lemma LastStateIsTheShuffle<T>(items: seq<T>, js: seq<nat>)
    requires |js| == |items| > 0 && AreChoices(js)
    ensures StateAfter(items, js, |items| - 1) == Shuffle(items, |items| - 1, js)
  {
    hide Shuffle, StateAfter;
    ShuffleFromState(items, js, |items| - 1);
    ShuffleIsOver(StateAfter(items, js, |items| - 1), js);
  }

  lemma EveryStateIsTraced<T>(items: seq<T>, seed: Digest32, rehash: Rehash)
    ensures var n := |items|;
            EveryStepTraced(StatesOf(items, Choices(seed, rehash, n)), BlocksOf(seed, rehash, n))
  {
    hide StepTraced, StateAfter, Choices, StreamBlock;
    var n := |items|;
    var states, blocks := StatesOf(items, Choices(seed, rehash, n)), BlocksOf(seed, rehash, n);
    forall s: nat | s + 1 < n ensures StepTraced(states, blocks, s) {
      StatesAreTraced(items, seed, rehash, s);
    }
  }

  lemma TraceIsAWitness<T(!new)>(states: seq<seq<T>>, blocks: seq<Digest32>, start: seq<T>, end: seq<T>, seed: Digest32, rehash: Rehash)
    requires IsTrace(states, blocks, start, end, seed, rehash)
    ensures ShuffledInto(start, end, seed, rehash)
  {
    hide IsTrace;
  }

  /** The specified shuffle is the traced one. */
  lemma ShuffleIsTraced<T(!new)>(items: seq<T>, seed: Digest32, rehash: Rehash)
    requires items != []
    ensures ShuffledInto(items, Shuffle(items, |items| - 1, Choices(seed, rehash, |items|)), seed, rehash)
  {
    hide EveryStepTraced, HashChain, Shuffle, StateAfter, Choices, ShuffledInto, StreamBlock, BlocksOf, StatesOf;
    var n := |items|;
    var js := Choices(seed, rehash, n);
    var states, blocks := StatesOf(items, js), BlocksOf(seed, rehash, n);
    BlocksAreChained(seed, rehash, n);
    LastStateIsTheShuffle(items, js);
    FirstState(items, js);
    EveryStateIsTraced(items, seed, rehash);
    TraceIsAWitness(states, blocks, items, Shuffle(items, n - 1, js), seed, rehash);
  }

  lemma FirstState<T>(items: seq<T>, js: seq<nat>)
    requires |js| == |items| > 0 && AreChoices(js)
    ensures StateAfter(items, js, 0) == items
  {
  }

  lemma {:induction false} SameChain(a: seq<Digest32>, b: seq<Digest32>, seed: Digest32, rehash: Rehash, n: nat)
    requires HashChain(a, seed, rehash) && HashChain(b, seed, rehash) && n < |a| == |b|
    ensures a[n] == b[n]
  {
    if n > 0 {
      SameChain(a, b, seed, rehash, n - 1);
    }
  }

  lemma SameExchange<T>(was: seq<T>, x: seq<T>, y: seq<T>, i: nat, j: nat)
    requires Exchanged(was, x, i, j) && Exchanged(was, y, i, j)
    ensures x == y
  {
  }

  lemma {:induction false} SameStates<T>(xs: seq<seq<T>>, ys: seq<seq<T>>, a: seq<Digest32>, b: seq<Digest32>, start: seq<T>,
                                         x: seq<T>, y: seq<T>, seed: Digest32, rehash: Rehash, s: nat)
    requires IsTrace(xs, a, start, x, seed, rehash) && IsTrace(ys, b, start, y, seed, rehash) && s < |start|
    ensures xs[s] == ys[s]
  {
    hide Exchanged, HashChain;
    if s > 0 {
      assert StepTraced(xs, a, s - 1) && StepTraced(ys, b, s - 1);
      SameStates(xs, ys, a, b, start, x, y, seed, rehash, s - 1);
      SameChain(a, b, seed, rehash, (s - 1) / 8);
      SameExchange(xs[s - 1], xs[s], ys[s], |start| - s, WordAt(a, s - 1) % (|start| - (s - 1)));
    }
  }

  /** The bytes decide the order. */
  lemma OneShuffle<T(!new)>(start: seq<T>, x: seq<T>, y: seq<T>, seed: Digest32, rehash: Rehash)
    requires ShuffledInto(start, x, seed, rehash) && ShuffledInto(start, y, seed, rehash)
    ensures x == y && |x| == |start|
  {
    hide IsTrace;
    var xs, a :| IsTrace(xs, a, start, x, seed, rehash);
    var ys, b :| IsTrace(ys, b, start, y, seed, rehash);
    TraceEnds(xs, a, start, x, seed, rehash);
    TraceEnds(ys, b, start, y, seed, rehash);
    SameStates(xs, ys, a, b, start, x, y, seed, rehash, |start| - 1);
    TraceKeepsLength(xs, a, start, x, seed, rehash, |start| - 1);
  }

  lemma TraceEnds<T>(states: seq<seq<T>>, blocks: seq<Digest32>, start: seq<T>, end: seq<T>, seed: Digest32, rehash: Rehash)
    requires IsTrace(states, blocks, start, end, seed, rehash)
    ensures |states| == |start| > 0 && states[|start| - 1] == end
  {
  }

  lemma {:induction false} TraceKeepsLength<T>(states: seq<seq<T>>, blocks: seq<Digest32>, start: seq<T>, end: seq<T>,
                                               seed: Digest32, rehash: Rehash, s: nat)
    requires IsTrace(states, blocks, start, end, seed, rehash) && s < |start|
    ensures s < |states| && |states[s]| == |start|
  {
    if s > 0 {
      assert StepTraced(states, blocks, s - 1);
      TraceKeepsLength(states, blocks, start, end, seed, rehash, s - 1);
    }
  }

  /** The shuffle as it runs: one cursor over one block, refilled when it is spent. */
  method ShuffleInPlace<T(!new)>(items: array<T>, seed: Digest32, rehash: Rehash)
    modifies items
    ensures items.Length > 0 ==>
              items[..] == Shuffle(old(items[..]), items.Length - 1, Choices(seed, rehash, items.Length))
    ensures items.Length > 0 ==> ShuffledInto(old(items[..]), items[..], seed, rehash)
    ensures multiset(items[..]) == multiset(old(items[..]))
  {
    hide ShuffledInto, Swap, Shuffle, Choices, StreamWord, BigEndian;
    if items.Length == 0 {
      return;
    }
    ghost var n, start := items.Length, items[..];
    ghost var js := Choices(seed, rehash, n);
    ghost var block, used := 0, 0;
    var stream := seed;
    var cursor := 0;
    var i := items.Length - 1;
    while i > 0
      invariant 0 <= i < n && items.Length == n
      invariant stream == StreamBlock(seed, rehash, block)
      invariant 0 <= used <= 8 && cursor == 4 * used
      invariant n - 1 - i == 8 * block + used
      invariant Shuffle(items[..], i, js) == Shuffle(start, n - 1, js)
    {
      if cursor + 4 > 32 {
        stream := rehash(stream);
        cursor := 0;
        block, used := block + 1, 0;
      }
      var draw := BigEndian(stream, cursor);
      cursor := cursor + 4;
      var j := draw % (i + 1);
      DrawIsTheChoice(seed, rehash, n, i, block, used);
      used := used + 1;
      ShuffleStep(items[..], i, js);
      ghost var was := items[..];
      items[i], items[j] := items[j], items[i];
      SwappedInPlace(was, items[..], i, j);
      i := i - 1;
    }
    ShuffleIsOver(items[..], js);
    ShuffleIsAPermutation(start, n - 1, js);
    ShuffleIsTraced(start, seed, rehash);
  }

  lemma SwappedInPlace<T>(was: seq<T>, now: seq<T>, i: nat, j: nat)
    requires i < |was| == |now| && j < |was| && now[i] == was[j] && now[j] == was[i]
    requires forall k :: 0 <= k < |was| && k != i && k != j ==> now[k] == was[k]
    ensures now == Swap(was, i, j)
  {
  }

  lemma ShuffleStep<T>(items: seq<T>, i: nat, js: seq<nat>)
    requires |js| == |items| && AreChoices(js) && 0 < i < |items|
    ensures Shuffle(items, i, js) == Shuffle(Swap(items, i, js[i]), i - 1, js)
  {
  }

  lemma ShuffleIsOver<T>(items: seq<T>, js: seq<nat>)
    requires |js| == |items| && AreChoices(js)
    ensures Shuffle(items, 0, js) == items
  {
  }

  lemma DrawIsTheChoice(seed: Digest32, rehash: Rehash, n: nat, i: nat, block: nat, used: nat)
    requires i < n && n - 1 - i == 8 * block + used && used < 8
    ensures Choices(seed, rehash, n)[i] == BigEndian(StreamBlock(seed, rehash, block), 4 * used) % (i + 1)
  {
    hide BigEndian, StreamBlock;
    var d := n - 1 - i;
    assert d / 8 == block && d % 8 == used;
    assert StreamWord(seed, rehash, d) == BigEndian(StreamBlock(seed, rehash, block), 4 * used);
    assert Choices(seed, rehash, n)[i] == StreamWord(seed, rehash, d) % (i + 1);
  }
}
