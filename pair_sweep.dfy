/**
  The nested loop `for i in range(n): for j in range(i + 1, n)` over the
  entries of an insertion-ordered dictionary, recording one value per
  qualifying pair under a key built from the two names. Stated over
  abstract names, data, keys and values so that the facts about the loop do
  not depend on what is being compared.
 */
module PairSweep {
  import opened Wrappers
  import opened Dicts

  /** When a pair is recorded, under which key, and with which value. */
  datatype PairRule<-N, -D, K, V> = PairRule(qualifies: (D, D) -> bool, key: (N, N) -> K, value: (D, D) -> V)

  /** Pair (i, j) stores its value under its key when it qualifies. */
  function Step<N, D, K(==,!new), V>(acc: Dict<K, V>, items: seq<(N, D)>, i: nat, j: nat, rule: PairRule<N, D, K, V>): Dict<K, V>
    requires i < j < |items|
  {
    if rule.qualifies(items[i].1, items[j].1) then
      Put(acc, rule.key(items[i].0, items[j].0), rule.value(items[i].1, items[j].1))
    else acc
  }

  /** `acc` after pairs (i, i + 1) .. (i, j - 1). */
  function InnerUpTo<N, D, K(==,!new), V>(acc: Dict<K, V>, items: seq<(N, D)>, i: nat, j: nat, rule: PairRule<N, D, K, V>): Dict<K, V>
    requires i < j <= |items|
    decreases j
  {
    if j == i + 1 then acc else Step(InnerUpTo(acc, items, i, j - 1, rule), items, i, j - 1, rule)
  }

  /** The dictionary after every pair whose first item comes before position `i`. */
  function OuterUpTo<N, D, K(==,!new), V>(items: seq<(N, D)>, i: nat, rule: PairRule<N, D, K, V>): Dict<K, V>
    requires i <= |items|
  {
    if i == 0 then [] else InnerUpTo(OuterUpTo(items, i - 1, rule), items, i - 1, |items|, rule)
  }

  /** The dictionary after every pair i < j. */
  function AllPairs<N, D, K(==,!new), V>(items: seq<(N, D)>, rule: PairRule<N, D, K, V>): Dict<K, V> {
    OuterUpTo(items, |items|, rule)
  }

  lemma InnerUnfold<N, D, K(!new), V>(acc: Dict<K, V>, items: seq<(N, D)>, i: nat, j: nat, rule: PairRule<N, D, K, V>)
    requires i < j < |items|
    ensures InnerUpTo(acc, items, i, j + 1, rule) == Step(InnerUpTo(acc, items, i, j, rule), items, i, j, rule)
  {
  }

  lemma OuterUnfold<N, D, K(!new), V>(items: seq<(N, D)>, i: nat, rule: PairRule<N, D, K, V>)
    requires i < |items|
    ensures OuterUpTo(items, i + 1, rule) == InnerUpTo(OuterUpTo(items, i, rule), items, i, |items|, rule)
  {
  }

  /** Items i < j qualify and their key is `k`. */
  ghost predicate KeyedPair<N, D, K, V>(items: seq<(N, D)>, rule: PairRule<N, D, K, V>, k: K, i: int, j: int) {
    0 <= i < j < |items| && rule.qualifies(items[i].1, items[j].1) && rule.key(items[i].0, items[j].0) == k
  }

  /** Some keyed pair's value is `v`. */
  ghost predicate ValuedBy<N, D, K, V>(items: seq<(N, D)>, rule: PairRule<N, D, K, V>, k: K, v: V) {
    exists i, j :: KeyedPair(items, rule, k, i, j) && rule.value(items[i].1, items[j].1) == v
  }

  lemma StepKeys<N, D, K(!new), V>(acc: Dict<K, V>, items: seq<(N, D)>, i: nat, j: nat, rule: PairRule<N, D, K, V>, k: K)
    requires i < j < |items|
    ensures k in Keys(Step(acc, items, i, j, rule)) <==> k in Keys(acc) || KeyedPair(items, rule, k, i, j)
  {
  }

  lemma StepGet<N, D, K(!new), V>(acc: Dict<K, V>, items: seq<(N, D)>, i: nat, j: nat, rule: PairRule<N, D, K, V>, k: K)
    requires i < j < |items|
    ensures Get(Step(acc, items, i, j, rule), k) ==
      if KeyedPair(items, rule, k, i, j) then Some(rule.value(items[i].1, items[j].1)) else Get(acc, k)
  {
  }

  /** Some pair (i, j') with j' < j has key `k`, scanning j' downwards. */
  ghost predicate InnerHas<N, D, K, V>(items: seq<(N, D)>, i: nat, j: nat, rule: PairRule<N, D, K, V>, k: K)
    decreases j
  {
    j > i + 1 && (InnerHas(items, i, j - 1, rule, k) || KeyedPair(items, rule, k, i, j - 1))
  }

  /** Some pair whose first item is before position `i` has key `k`. */
  ghost predicate OuterHas<N, D, K, V>(items: seq<(N, D)>, i: nat, rule: PairRule<N, D, K, V>, k: K) {
    i > 0 && (OuterHas(items, i - 1, rule, k) || InnerHas(items, i - 1, |items|, rule, k))
  }

  lemma InnerKeysStep<N, D, K(!new), V>(acc: Dict<K, V>, items: seq<(N, D)>, i: nat, j: nat, rule: PairRule<N, D, K, V>, k: K)
    requires i + 1 < j <= |items|
    requires k in Keys(InnerUpTo(acc, items, i, j - 1, rule)) <==> k in Keys(acc) || InnerHas(items, i, j - 1, rule, k)
    ensures k in Keys(InnerUpTo(acc, items, i, j, rule)) <==> k in Keys(acc) || InnerHas(items, i, j, rule, k)
  {
    var before := InnerUpTo(acc, items, i, j - 1, rule);
    assert InnerUpTo(acc, items, i, j, rule) == Step(before, items, i, j - 1, rule);
    StepKeys(before, items, i, j - 1, rule, k);
  }

  lemma {:induction false} InnerKeys<N, D, K(!new), V>(acc: Dict<K, V>, items: seq<(N, D)>, i: nat, j: nat, rule: PairRule<N, D, K, V>, k: K)
    requires i < j <= |items|
    ensures k in Keys(InnerUpTo(acc, items, i, j, rule)) <==> k in Keys(acc) || InnerHas(items, i, j, rule, k)
    decreases j
  {
    if j > i + 1 {
      InnerKeys(acc, items, i, j - 1, rule, k);
      InnerKeysStep(acc, items, i, j, rule, k);
    }
  }

  lemma {:induction false} OuterKeys<N, D, K(!new), V>(items: seq<(N, D)>, i: nat, rule: PairRule<N, D, K, V>, k: K)
    requires i <= |items|
    ensures k in Keys(OuterUpTo(items, i, rule)) <==> OuterHas(items, i, rule, k)
  {
    if i > 0 {
      var before := OuterUpTo(items, i - 1, rule);
      assert OuterUpTo(items, i, rule) == InnerUpTo(before, items, i - 1, |items|, rule);
      OuterKeys(items, i - 1, rule, k);
      InnerKeys(before, items, i - 1, |items|, rule, k);
    }
  }

  /** The inner scan finds exactly the keyed pairs (i, j') with j' < j. */
  lemma {:induction false} InnerHasIff<N, D, K, V>(items: seq<(N, D)>, i: nat, j: nat, rule: PairRule<N, D, K, V>, k: K)
    ensures InnerHas(items, i, j, rule, k) <==> exists j' :: j' < j && KeyedPair(items, rule, k, i, j')
    decreases j
  {
    if j > i + 1 {
      InnerHasIff(items, i, j - 1, rule, k);
      if exists j' :: j' < j && KeyedPair(items, rule, k, i, j') {
        var j' :| j' < j && KeyedPair(items, rule, k, i, j');
        assert j' < j - 1 || j' == j - 1;
      }
    }
  }

  /** The outer scan finds exactly the keyed pairs whose first item is before position `i`. */
  lemma {:induction false} OuterHasIff<N, D, K, V>(items: seq<(N, D)>, i: nat, rule: PairRule<N, D, K, V>, k: K)
    ensures OuterHas(items, i, rule, k) <==> exists a, b :: a < i && KeyedPair(items, rule, k, a, b)
  {
    if i > 0 {
      OuterHasIff(items, i - 1, rule, k);
      InnerHasIff(items, i - 1, |items|, rule, k);
      if exists a, b :: a < i && KeyedPair(items, rule, k, a, b) {
        var a, b :| a < i && KeyedPair(items, rule, k, a, b);
        if a == i - 1 {
          assert b < |items| && KeyedPair(items, rule, k, i - 1, b);
        } else {
          assert a < i - 1;
        }
      }
      if InnerHas(items, i - 1, |items|, rule, k) {
        var b :| b < |items| && KeyedPair(items, rule, k, i - 1, b);
        assert i - 1 < i;
      }
    }
  }

  /**
    What the inner scan leaves under `k`: the value of the last keyed pair
    (i, j') with j' < j, or `prior` when there is none.
   */
  ghost function InnerGet<N, D, K, V>(prior: Option<V>, items: seq<(N, D)>, i: nat, j: nat, rule: PairRule<N, D, K, V>, k: K): Option<V>
    decreases j
  {
    if j <= i + 1 then prior
    else if KeyedPair(items, rule, k, i, j - 1) then Some(rule.value(items[i].1, items[j - 1].1))
    else InnerGet(prior, items, i, j - 1, rule, k)
  }

  /** What the outer scan leaves under `k` after the pairs whose first item is before position `i`. */
  ghost function OuterGet<N, D, K, V>(items: seq<(N, D)>, i: nat, rule: PairRule<N, D, K, V>, k: K): Option<V> {
    if i == 0 then None else InnerGet(OuterGet(items, i - 1, rule, k), items, i - 1, |items|, rule, k)
  }

  lemma InnerGetStep<N, D, K(!new), V>(acc: Dict<K, V>, items: seq<(N, D)>, i: nat, j: nat, rule: PairRule<N, D, K, V>, k: K)
    requires i + 1 < j <= |items|
    requires Get(InnerUpTo(acc, items, i, j - 1, rule), k) == InnerGet(Get(acc, k), items, i, j - 1, rule, k)
    ensures Get(InnerUpTo(acc, items, i, j, rule), k) == InnerGet(Get(acc, k), items, i, j, rule, k)
  {
    var before := InnerUpTo(acc, items, i, j - 1, rule);
    assert InnerUpTo(acc, items, i, j, rule) == Step(before, items, i, j - 1, rule);
    StepGet(before, items, i, j - 1, rule, k);
  }

  lemma {:induction false} InnerGets<N, D, K(!new), V>(acc: Dict<K, V>, items: seq<(N, D)>, i: nat, j: nat, rule: PairRule<N, D, K, V>, k: K)
    requires i < j <= |items|
    ensures Get(InnerUpTo(acc, items, i, j, rule), k) == InnerGet(Get(acc, k), items, i, j, rule, k)
    decreases j
  {
    if j > i + 1 {
      InnerGets(acc, items, i, j - 1, rule, k);
      InnerGetStep(acc, items, i, j, rule, k);
    }
  }

  lemma {:induction false} OuterGets<N, D, K(!new), V>(items: seq<(N, D)>, i: nat, rule: PairRule<N, D, K, V>, k: K)
    requires i <= |items|
    ensures Get(OuterUpTo(items, i, rule), k) == OuterGet(items, i, rule, k)
  {
    if i > 0 {
      var before := OuterUpTo(items, i - 1, rule);
      assert OuterUpTo(items, i, rule) == InnerUpTo(before, items, i - 1, |items|, rule);
      OuterGets(items, i - 1, rule, k);
      InnerGets(before, items, i - 1, |items|, rule, k);
    }
  }

  lemma PairIsValued<N, D, K, V>(items: seq<(N, D)>, rule: PairRule<N, D, K, V>, k: K, i: nat, j: nat)
    requires KeyedPair(items, rule, k, i, j)
    ensures ValuedBy(items, rule, k, rule.value(items[i].1, items[j].1))
  {
  }

  lemma {:induction false} InnerGetValued<N, D, K, V>(prior: Option<V>, items: seq<(N, D)>, i: nat, j: nat, rule: PairRule<N, D, K, V>, k: K)
    requires prior.Some? ==> ValuedBy(items, rule, k, prior.value)
    ensures InnerGet(prior, items, i, j, rule, k).Some? ==> ValuedBy(items, rule, k, InnerGet(prior, items, i, j, rule, k).value)
    decreases j
  {
    if j > i + 1 {
      if KeyedPair(items, rule, k, i, j - 1) {
        PairIsValued(items, rule, k, i, j - 1);
      } else {
        InnerGetValued(prior, items, i, j - 1, rule, k);
      }
    }
  }

  lemma {:induction false} OuterGetValued<N, D, K, V>(items: seq<(N, D)>, i: nat, rule: PairRule<N, D, K, V>, k: K)
    ensures OuterGet(items, i, rule, k).Some? ==> ValuedBy(items, rule, k, OuterGet(items, i, rule, k).value)
  {
    if i > 0 {
      OuterGetValued(items, i - 1, rule, k);
      InnerGetValued(OuterGet(items, i - 1, rule, k), items, i - 1, |items|, rule, k);
    }
  }

  /** A key is recorded exactly when some qualifying pair i < j has that key. */
  lemma AllPairsKeys<N, D, K(!new), V>(items: seq<(N, D)>, rule: PairRule<N, D, K, V>, k: K)
    ensures k in Keys(AllPairs(items, rule)) <==> exists i, j :: KeyedPair(items, rule, k, i, j)
  {
    OuterKeys(items, |items|, rule, k);
    OuterHasIff(items, |items|, rule, k);
    if exists i, j :: KeyedPair(items, rule, k, i, j) {
      var i, j :| KeyedPair(items, rule, k, i, j);
      assert i < |items|;
    }
  }

  /** Every recorded value is the value of a qualifying pair with that key. */
  lemma AllPairsValues<N, D, K(!new), V>(items: seq<(N, D)>, rule: PairRule<N, D, K, V>, k: K)
    requires Get(AllPairs(items, rule), k).Some?
    ensures ValuedBy(items, rule, k, Get(AllPairs(items, rule), k).value)
  {
    OuterGets(items, |items|, rule, k);
    OuterGetValued(items, |items|, rule, k);
  }
}
