/**
  Cross-engine comparison: two agreement scores for pairs of series (one for
  multi-joint trajectories, one for scalar series) and the pairwise loop that
  scores every pair of engines on positions, velocities and total energy.
 */
module EngineComparison {
  import opened Wrappers
  import opened Numerics
  import opened Dicts
  import opened PhysicsValidation
  import opened PairSweep

  /** Overall agreement needs every score strictly above this. */
  const AgreementThreshold: real := 0.9

  function MinLength(m: nat, n: nat): nat {
    if m < n then m else n
  }

  // ----- Scalar series -----

  /** `np.abs(a - b) / (np.abs(a) + 1e-12)` entry by entry. */
  function RelativeErrors(a: seq<real>, b: seq<real>): (e: seq<real>)
    requires |a| == |b|
    ensures |e| == |a|
    ensures forall i :: 0 <= i < |a| ==> 0.0 <= e[i]
    ensures forall i :: 0 <= i < |a| ==> (e[i] == 0.0 <==> a[i] == b[i])
  {
    seq(|a|, i requires 0 <= i < |a| => RelativeError(a[i], b[i]))
  }

  function RelativeError(x: real, y: real): (e: real)
    ensures 0.0 <= e
    ensures e == 0.0 <==> x == y
  {
    var d := Abs(x) + Epsilon;
    assert 0.0 < d;
    var n := Abs(x - y);
    assert n == 0.0 <==> x == y;
    QuotientSign(n, d);
    n / d
  }

  /** A non-negative number over a positive one is non-negative, and zero only for a zero numerator. */
  lemma QuotientSign(n: real, d: real)
    requires 0.0 <= n && 0.0 < d
    ensures 0.0 <= n / d
    ensures n / d == 0.0 <==> n == 0.0
  {
    assert n == (n / d) * d;
  }

  /**
    `_compare_scalars`: both series are cut to the shorter length and scored
    `max(0.0, 1.0 - mean relative error)`. The mean of no samples is NaN, and
    `max(0.0, nan)` is 0.0.
   */
  /** `max(0.0, 1.0 - error / scale)`: 1.0 for no error, falling to 0.0 as the error reaches the scale. */
  function Agreement(error: real, scale: real): (score: real)
    requires 0.0 <= error && 0.0 < scale
    ensures 0.0 <= score <= 1.0
    ensures score == 1.0 <==> error == 0.0
  {
    QuotientSign(error, scale);
    Max(0.0, 1.0 - error / scale)
  }

  function CompareScalars(s1: seq<real>, s2: seq<real>): (score: real)
    ensures 0.0 <= score <= 1.0
  {
    var n := MinLength(|s1|, |s2|);
    if n == 0 then 0.0
    else
      var errors := RelativeErrors(s1[..n], s2[..n]);
      SumNonNegative(errors);
      Agreement(Sum(errors), n as real)
  }

  /** Samples past the end of the shorter series do not affect the score. */
  lemma ScalarsIgnoreTail(s1: seq<real>, s2: seq<real>, extra: seq<real>)
    requires |s1| <= |s2|
    ensures CompareScalars(s1, s2 + extra) == CompareScalars(s1, s2)
  {
    assert (s2 + extra)[..|s1|] == s2[..|s1|];
  }

  /** Samples past the end of the shorter first series do not affect the score either. */
  lemma ScalarsIgnoreFirstTail(s1: seq<real>, s2: seq<real>, extra: seq<real>)
    requires |s2| <= |s1|
    ensures CompareScalars(s1 + extra, s2) == CompareScalars(s1, s2)
  {
    assert (s1 + extra)[..|s2|] == s1[..|s2|];
  }

  /** Both series are cut to their common length before they are scored. */
  lemma ScalarsCommonPrefix(s1: seq<real>, s2: seq<real>)
    ensures var n := MinLength(|s1|, |s2|);
      CompareScalars(s1, s2) == CompareScalars(s1[..n], s2[..n])
  {
    var n := MinLength(|s1|, |s2|);
    assert s1[..n][..n] == s1[..n] && s2[..n][..n] == s2[..n];
  }

  /** A sum of non-negative terms is zero only when every term is. */
  lemma {:induction false} SumZeroOnlyIfAllZero(s: seq<real>)
    requires forall i :: 0 <= i < |s| ==> 0.0 <= s[i]
    requires Sum(s) == 0.0
    ensures forall i :: 0 <= i < |s| ==> s[i] == 0.0
  {
    if s != [] {
      SumNonNegative(s[1..]);
      SumZeroOnlyIfAllZero(s[1..]);
      forall i | 1 <= i < |s| ensures s[i] == 0.0 {
        assert s[i] == s[1..][i - 1];
      }
    }
  }

  /** Two overlapping scalar series score 1.0 exactly when their common prefix is identical. */
  lemma ScalarsPerfectIffEqual(s1: seq<real>, s2: seq<real>)
    requires 0 < |s1| && 0 < |s2|
    ensures CompareScalars(s1, s2) == 1.0 <==> s1[..MinLength(|s1|, |s2|)] == s2[..MinLength(|s1|, |s2|)]
  {
    var n := MinLength(|s1|, |s2|);
    var a, b := s1[..n], s2[..n];
    var errors := RelativeErrors(a, b);
    SumNonNegative(errors);
    if a == b {
      SumZero(errors);
    } else if Sum(errors) == 0.0 {
      var i :| 0 <= i < n && a[i] != b[i];
      SumZeroOnlyIfAllZero(errors);
    }
  }

  // ----- Trajectories -----

  /** Every row has the same length, so numpy builds a 2-D array from it. */
  predicate Rectangular(rows: seq<seq<real>>) {
    forall i, j :: 0 <= i < |rows| && 0 <= j < |rows| ==> |rows[i]| == |rows[j]|
  }

  function Width(rows: seq<seq<real>>): nat {
    if rows == [] then 0 else |rows[0]|
  }

  /** `arr1 - arr2` for two 2-D arrays with the same number of rows, under broadcasting. */
  function RowsSub(a: seq<seq<real>>, b: seq<seq<real>>): (r: Option<seq<seq<real>>>)
    requires |a| == |b|
    ensures r.Some? <==> forall i :: 0 <= i < |a| ==> BroadcastSub(a[i], b[i]).Some?
    ensures r.Some? ==> |r.value| == |a| && forall i :: 0 <= i < |a| ==> r.value[i] == BroadcastSub(a[i], b[i]).value
  {
    if forall i :: 0 <= i < |a| ==> BroadcastSub(a[i], b[i]).Some? then
      Some(seq(|a|, i requires 0 <= i < |a| => BroadcastSub(a[i], b[i]).value))
    else None
  }

  /** The sum of the squares of every entry of a 2-D array. */
  function SumSquaresRows(rows: seq<seq<real>>): (r: real)
    ensures 0.0 <= r
    ensures (forall i, j :: 0 <= i < |rows| && 0 <= j < |rows[i]| ==> rows[i][j] == 0.0) ==> r == 0.0
  {
    if rows == [] then 0.0 else SumSquares(rows[0]) + SumSquaresRows(rows[1..])
  }

  /**
    `_compare_trajectories`: both trajectories are cut to the shorter length;
    the score is `max(0.0, 1.0 - rms(arr1 - arr2) / (rms(arr1) + 1e-12))`.
    Ragged rows and widths that do not broadcast raise and score 0.0; an empty
    difference has a NaN mean and also scores 0.0.
   */
  function CompareTrajectories(t1: seq<seq<real>>, t2: seq<seq<real>>, sqrt: Sqrt): (score: real)
    ensures 0.0 <= score <= 1.0
  {
    var n := MinLength(|t1|, |t2|);
    var a, b := t1[..n], t2[..n];
    if !Rectangular(a) || !Rectangular(b) then 0.0
    else match RowsSub(a, b)
      case None => 0.0
      case Some(diff) =>
        var count := n * Width(diff);
        if count == 0 then 0.0
        else
          assert 0 < n && 0 < Width(diff) && 0 < Width(a);
          ProductPositive(n, Width(diff));
          ProductPositive(n, Width(a));
          Agreement(RootMeanSquare(diff, count, sqrt), RootMeanSquare(a, n * Width(a), sqrt) + Epsilon)
  }

  lemma ProductPositive(x: nat, y: nat)
    requires 0 < x && 0 < y
    ensures 0 < x * y
  {
  }

  /** `sqrt(mean(rows ** 2))` for an array of `count` entries. */
  function RootMeanSquare(rows: seq<seq<real>>, count: nat, sqrt: Sqrt): (r: real)
    requires 0 < count
    ensures 0.0 <= r
    ensures (forall i, j :: 0 <= i < |rows| && 0 <= j < |rows[i]| ==> rows[i][j] == 0.0) ==> r == 0.0
  {
    QuotientSign(SumSquaresRows(rows), count as real);
    sqrt(SumSquaresRows(rows) / count as real)
  }

  /** Rows past the end of the shorter trajectory do not affect the score. */
  lemma TrajectoriesIgnoreTail(t1: seq<seq<real>>, t2: seq<seq<real>>, extra: seq<seq<real>>, sqrt: Sqrt)
    requires |t1| <= |t2|
    ensures CompareTrajectories(t1, t2 + extra, sqrt) == CompareTrajectories(t1, t2, sqrt)
  {
    assert (t2 + extra)[..|t1|] == t2[..|t1|];
  }

  /** Rows past the end of the shorter first trajectory do not affect the score either. */
  lemma TrajectoriesIgnoreFirstTail(t1: seq<seq<real>>, t2: seq<seq<real>>, extra: seq<seq<real>>, sqrt: Sqrt)
    requires |t2| <= |t1|
    ensures CompareTrajectories(t1 + extra, t2, sqrt) == CompareTrajectories(t1, t2, sqrt)
  {
    assert (t1 + extra)[..|t2|] == t1[..|t2|];
  }

  /** Both trajectories are cut to their common length before they are scored. */
  lemma TrajectoriesCommonPrefix(t1: seq<seq<real>>, t2: seq<seq<real>>, sqrt: Sqrt)
    ensures var n := MinLength(|t1|, |t2|);
      CompareTrajectories(t1, t2, sqrt) == CompareTrajectories(t1[..n], t2[..n], sqrt)
  {
    var n := MinLength(|t1|, |t2|);
    assert t1[..n][..n] == t1[..n] && t2[..n][..n] == t2[..n];
  }

  /** A non-empty rectangular trajectory agrees perfectly with itself. */
  lemma IdenticalTrajectoriesAgree(t: seq<seq<real>>, sqrt: Sqrt)
    requires t != [] && Rectangular(t) && 0 < Width(t)
    ensures CompareTrajectories(t, t, sqrt) == 1.0
  {
    var a := t[..|t|];
    assert a == t;
    var diff := RowsSub(a, a).value;
    assert forall i, j :: 0 <= i < |diff| && 0 <= j < |diff[i]| ==> diff[i][j] == 0.0;
    assert |diff[0]| == |t[0]|;
  }

  // ----- Pairwise comparison of engines -----

  /** The three series the comparison scores. */
  datatype Metric = Position | Velocity | Energy

  /** Both engines have a non-empty series for this metric, so the pair is scored. */
  predicate Eligible(m: Metric, x: SimulationData, y: SimulationData) {
    match m
    case Position => x.jointPositions != [] && y.jointPositions != []
    case Velocity => x.jointVelocities != [] && y.jointVelocities != []
    case Energy => x.totalEnergy != [] && y.totalEnergy != []
  }

  /** The agreement of two engines on one metric. */
  function Score(m: Metric, x: SimulationData, y: SimulationData, sqrt: Sqrt): (score: real)
    ensures 0.0 <= score <= 1.0
  {
    match m
    case Position => CompareTrajectories(x.jointPositions, y.jointPositions, sqrt)
    case Velocity => CompareTrajectories(x.jointVelocities, y.jointVelocities, sqrt)
    case Energy => CompareScalars(x.totalEnergy, y.totalEnergy)
  }

  /** `f"{engine1}_vs_{engine2}"`. */
  function PairKey(a: string, b: string): string {
    a + "_vs_" + b
  }

  /** How one metric's agreements are recorded: eligible pairs, keyed by PairKey, scored by Score. */
  function RuleOf(m: Metric, sqrt: Sqrt): PairRule<string, SimulationData, string, real> {
    PairRule((x, y) => Eligible(m, x, y), (a, b) => PairKey(a, b), (x, y) => Score(m, x, y, sqrt))
  }

  /** The agreement dictionary of one metric: every pair i < j, in loop order. */
  function Agreements(engines: Dict<string, SimulationData>, m: Metric, sqrt: Sqrt): Dict<string, real> {
    AllPairs(engines, RuleOf(m, sqrt))
  }

  /** Engines i < j both have a series for `m` and their pair key is `k`. */
  ghost predicate ComparedPair(engines: Dict<string, SimulationData>, m: Metric, k: string, i: int, j: int) {
    0 <= i < j < |engines| && Eligible(m, engines[i].1, engines[j].1) && PairKey(engines[i].0, engines[j].0) == k
  }

  lemma ComparedPairIff(engines: Dict<string, SimulationData>, m: Metric, sqrt: Sqrt, k: string, i: int, j: int)
    ensures PairSweep.KeyedPair(engines, RuleOf(m, sqrt), k, i, j) <==> ComparedPair(engines, m, k, i, j)
  {
  }

  /** A pair key is recorded exactly when some eligible pair i < j has that key. */
  lemma AgreementKeys(engines: Dict<string, SimulationData>, m: Metric, sqrt: Sqrt, k: string)
    ensures k in Keys(Agreements(engines, m, sqrt)) <==> exists i, j :: ComparedPair(engines, m, k, i, j)
  {
    AllPairsKeys(engines, RuleOf(m, sqrt), k);
    if exists i, j :: ComparedPair(engines, m, k, i, j) {
      var i, j :| ComparedPair(engines, m, k, i, j);
      ComparedPairIff(engines, m, sqrt, k, i, j);
    }
    if exists i, j :: PairSweep.KeyedPair(engines, RuleOf(m, sqrt), k, i, j) {
      var i, j :| PairSweep.KeyedPair(engines, RuleOf(m, sqrt), k, i, j);
      ComparedPairIff(engines, m, sqrt, k, i, j);
    }
  }

  /** Every recorded agreement is the score of an eligible pair i < j with that key. */
  lemma AgreementValues(engines: Dict<string, SimulationData>, m: Metric, sqrt: Sqrt, k: string)
    requires Get(Agreements(engines, m, sqrt), k).Some?
    ensures exists i, j ::
      (ComparedPair(engines, m, k, i, j) && Score(m, engines[i].1, engines[j].1, sqrt) == Get(Agreements(engines, m, sqrt), k).value)
  {
    var rule := RuleOf(m, sqrt);
    AllPairsValues(engines, rule, k);
    var i, j :| PairSweep.KeyedPair(engines, rule, k, i, j) && rule.value(engines[i].1, engines[j].1) == Get(Agreements(engines, m, sqrt), k).value;
    ComparedPairIff(engines, m, sqrt, k, i, j);
  }

  /** With fewer than two engines there is no pair, so nothing is recorded. */
  lemma FewEnginesNoAgreements(engines: Dict<string, SimulationData>, m: Metric, sqrt: Sqrt)
    requires |engines| < 2
    ensures Agreements(engines, m, sqrt) == []
  {
    if Agreements(engines, m, sqrt) != [] {
      var k := Keys(Agreements(engines, m, sqrt))[0];
      AgreementKeys(engines, m, sqrt, k);
      assert false;
    }
  }

  datatype ComparisonResult = ComparisonResult(
    enginesCompared: seq<string>,
    positionAgreement: Dict<string, real>,
    velocityAgreement: Dict<string, real>,
    energyAgreement: Dict<string, real>,
    overallAgreement: bool)

  /** `all_agreements`: every recorded score, positions first, then velocities, then energies. */
  function AllAgreements(r: ComparisonResult): seq<real> {
    Values(r.positionAgreement) + Values(r.velocityAgreement) + Values(r.energyAgreement)
  }

  /**
    What `compare_engines` computes: the engine names, one agreement
    dictionary per metric, and overall agreement when at least one score was
    recorded and every score is above AgreementThreshold. With fewer than two
    engines nothing is compared.
   */
  function PairwiseComparison(engines: Dict<string, SimulationData>, sqrt: Sqrt): ComparisonResult {
    if |engines| < 2 then ComparisonResult(Keys(engines), [], [], [], false)
    else
      var position := Agreements(engines, Position, sqrt);
      var velocity := Agreements(engines, Velocity, sqrt);
      var energy := Agreements(engines, Energy, sqrt);
      var all := Values(position) + Values(velocity) + Values(energy);
      ComparisonResult(Keys(engines), position, velocity, energy, all != [] && forall a :: a in all ==> a > AgreementThreshold)
  }

  /**
    One metric's block of the inner loop body: when both engines of the pair
    have the series, its score is stored under the pair key.
   */
  method RecordAgreement(agreements: Dict<string, real>, engines: Dict<string, SimulationData>, i: nat, j: nat, m: Metric, sqrt: Sqrt)
    returns (updated: Dict<string, real>)
    requires i < j < |engines|
    ensures updated == Step(agreements, engines, i, j, RuleOf(m, sqrt))
  {
    updated := agreements;
    var key := PairKey(engines[i].0, engines[j].0);
    var first, second := engines[i].1, engines[j].1;
    match m
    case Position =>
      if first.jointPositions != [] && second.jointPositions != [] {
        updated := Put(agreements, key, CompareTrajectories(first.jointPositions, second.jointPositions, sqrt));
      }
    case Velocity =>
      if first.jointVelocities != [] && second.jointVelocities != [] {
        updated := Put(agreements, key, CompareTrajectories(first.jointVelocities, second.jointVelocities, sqrt));
      }
    case Energy =>
      if first.totalEnergy != [] && second.totalEnergy != [] {
        updated := Put(agreements, key, CompareScalars(first.totalEnergy, second.totalEnergy));
      }
  }

  /**
    `compare_engines`: scores every pair of engines i < j (in the dictionary's
    order) on each metric both engines have, keyed "<first>_vs_<second>";
    overall agreement holds when at least one score was recorded and every
    score is above AgreementThreshold.
   */
  method CompareEngines(engines: Dict<string, SimulationData>, sqrt: Sqrt) returns (r: ComparisonResult)
    requires DistinctKeys(engines)
    ensures r == PairwiseComparison(engines, sqrt)
  {
    var names := Keys(engines);
    if |names| < 2 {
      FewEnginesNoAgreements(engines, Position, sqrt);
      FewEnginesNoAgreements(engines, Velocity, sqrt);
      FewEnginesNoAgreements(engines, Energy, sqrt);
      return ComparisonResult(names, [], [], [], false);
    }
    var position: Dict<string, real> := [];
    var velocity: Dict<string, real> := [];
    var energy: Dict<string, real> := [];
    var i := 0;
    while i < |names|
      invariant 0 <= i <= |names|
      invariant position == OuterUpTo(engines, i, RuleOf(Position, sqrt))
      invariant velocity == OuterUpTo(engines, i, RuleOf(Velocity, sqrt))
      invariant energy == OuterUpTo(engines, i, RuleOf(Energy, sqrt))
    {
      var j := i + 1;
      OuterUnfold(engines, i, RuleOf(Position, sqrt));
      OuterUnfold(engines, i, RuleOf(Velocity, sqrt));
      OuterUnfold(engines, i, RuleOf(Energy, sqrt));
      while j < |names|
        invariant i < j <= |names|
        invariant position == InnerUpTo(OuterUpTo(engines, i, RuleOf(Position, sqrt)), engines, i, j, RuleOf(Position, sqrt))
        invariant velocity == InnerUpTo(OuterUpTo(engines, i, RuleOf(Velocity, sqrt)), engines, i, j, RuleOf(Velocity, sqrt))
        invariant energy == InnerUpTo(OuterUpTo(engines, i, RuleOf(Energy, sqrt)), engines, i, j, RuleOf(Energy, sqrt))
      {
        position := RecordAgreement(position, engines, i, j, Position, sqrt);
        velocity := RecordAgreement(velocity, engines, i, j, Velocity, sqrt);
        energy := RecordAgreement(energy, engines, i, j, Energy, sqrt);
        InnerUnfold(OuterUpTo(engines, i, RuleOf(Position, sqrt)), engines, i, j, RuleOf(Position, sqrt));
        InnerUnfold(OuterUpTo(engines, i, RuleOf(Velocity, sqrt)), engines, i, j, RuleOf(Velocity, sqrt));
        InnerUnfold(OuterUpTo(engines, i, RuleOf(Energy, sqrt)), engines, i, j, RuleOf(Energy, sqrt));
        j := j + 1;
      }
      i := i + 1;
    }
    var all := Values(position) + Values(velocity) + Values(energy);
    var overall := false;
    if all != [] {
      overall := forall a | a in all :: a > AgreementThreshold;
    }
    r := ComparisonResult(names, position, velocity, energy, overall);
  }

  /** Some score is recorded for a metric exactly when some pair of engines is eligible for it. */
  lemma AnyAgreementIffEligiblePair(engines: Dict<string, SimulationData>, m: Metric, sqrt: Sqrt)
    ensures Agreements(engines, m, sqrt) != [] <==>
      exists i, j :: 0 <= i < j < |engines| && Eligible(m, engines[i].1, engines[j].1)
  {
    var d := Agreements(engines, m, sqrt);
    if d != [] {
      var k := Keys(d)[0];
      AgreementKeys(engines, m, sqrt, k);
      var i, j :| ComparedPair(engines, m, k, i, j);
    }
    if exists i, j :: 0 <= i < j < |engines| && Eligible(m, engines[i].1, engines[j].1) {
      var i, j :| 0 <= i < j < |engines| && Eligible(m, engines[i].1, engines[j].1);
      var k := PairKey(engines[i].0, engines[j].0);
      AgreementKeys(engines, m, sqrt, k);
      assert ComparedPair(engines, m, k, i, j);
      assert k in Keys(d);
    }
  }

  /** Some pair of engines has a series of this metric on both sides. */
  ghost predicate AnyEligiblePair(engines: Dict<string, SimulationData>, m: Metric) {
    exists i, j :: 0 <= i < j < |engines| && Eligible(m, engines[i].1, engines[j].1)
  }

  /**
    Overall agreement holds exactly when some pair of engines shares a series
    and every recorded score is above AgreementThreshold.
   */
  lemma OverallAgreementIff(engines: Dict<string, SimulationData>, sqrt: Sqrt)
    ensures var r := PairwiseComparison(engines, sqrt);
      r.overallAgreement <==>
        (AnyEligiblePair(engines, Position) || AnyEligiblePair(engines, Velocity) || AnyEligiblePair(engines, Energy))
        && forall a :: a in AllAgreements(r) ==> a > AgreementThreshold
  {
    var r := PairwiseComparison(engines, sqrt);
    if |engines| < 2 {
      FewEnginesNoAgreements(engines, Position, sqrt);
      FewEnginesNoAgreements(engines, Velocity, sqrt);
      FewEnginesNoAgreements(engines, Energy, sqrt);
    }
    AnyAgreementIffEligiblePair(engines, Position, sqrt);
    AnyAgreementIffEligiblePair(engines, Velocity, sqrt);
    AnyAgreementIffEligiblePair(engines, Energy, sqrt);
    assert AllAgreements(r) == Values(r.positionAgreement) + Values(r.velocityAgreement) + Values(r.energyAgreement);
  }

  /** Every recorded score of one metric lies in [0, 1]. */
  lemma ScoresInUnitInterval(engines: Dict<string, SimulationData>, m: Metric, sqrt: Sqrt, k: string)
    requires Get(Agreements(engines, m, sqrt), k).Some?
    ensures 0.0 <= Get(Agreements(engines, m, sqrt), k).value <= 1.0
  {
    AgreementValues(engines, m, sqrt, k);
    var i, j :| ComparedPair(engines, m, k, i, j)
      && Score(m, engines[i].1, engines[j].1, sqrt) == Get(Agreements(engines, m, sqrt), k).value;
  }
}
