/**
  Arithmetic over ideal reals shared by the validators. Square roots come in
  as a parameter about which only two facts are known (see IsSqrt), the way
  the validators use numpy's sqrt and np.linalg.norm.
 */
module Numerics {
  import opened Wrappers

  /** What the model knows about the square root it is given. */
  ghost predicate IsSqrt(sqrt: real -> real) {
    sqrt(0.0) == 0.0 && forall x :: 0.0 <= x ==> 0.0 <= sqrt(x)
  }

  /** A square root function, known only through IsSqrt. */
  type Sqrt = f: real -> real | IsSqrt(f) witness (x: real) => if x < 0.0 then 0.0 else x

  function Abs(x: real): (r: real)
    ensures 0.0 <= r && (r == x || r == -x)
  {
    if x < 0.0 then -x else x
  }

  /** Python's `max(a, b)`. */
  function Max(a: real, b: real): (r: real)
    ensures a <= r && b <= r && (r == a || r == b)
  {
    if b > a then b else a
  }

  function Sum(s: seq<real>): real {
    if s == [] then 0.0 else s[0] + Sum(s[1..])
  }

  lemma {:induction false} SumNonNegative(s: seq<real>)
    requires forall i :: 0 <= i < |s| ==> 0.0 <= s[i]
    ensures 0.0 <= Sum(s)
  {
    if s != [] { SumNonNegative(s[1..]); }
  }

  lemma {:induction false} SumZero(s: seq<real>)
    requires forall i :: 0 <= i < |s| ==> s[i] == 0.0
    ensures Sum(s) == 0.0
  {
    if s != [] { SumZero(s[1..]); }
  }

  /** The sum of the squares of the entries of `v`. */
  function SumSquares(v: seq<real>): (r: real)
    ensures 0.0 <= r
    ensures (forall i :: 0 <= i < |v| ==> v[i] == 0.0) ==> r == 0.0
  {
    if v == [] then 0.0 else v[0] * v[0] + SumSquares(v[1..])
  }

  /** `np.linalg.norm(v)` for a vector: the Euclidean length. */
  function Norm(v: seq<real>, sqrt: Sqrt): (r: real)
    ensures 0.0 <= r
    ensures (forall i :: 0 <= i < |v| ==> v[i] == 0.0) ==> r == 0.0
  {
    sqrt(SumSquares(v))
  }

  /**
    `np.array(a) - np.array(b)` for two vectors under numpy broadcasting:
    equal lengths subtract entry by entry, a length-1 side is repeated, and any
    other pair of shapes raises (None).
   */
  function BroadcastSub(a: seq<real>, b: seq<real>): (r: Option<seq<real>>)
    ensures r.Some? <==> |a| == |b| || |a| == 1 || |b| == 1
    ensures r.Some? ==> |r.value| == if |a| == 1 then |b| else |a|
    ensures |a| == |b| ==> r.Some? && forall i :: 0 <= i < |a| ==> r.value[i] == a[i] - b[i]
    ensures |a| != |b| && |a| == 1 ==> r.Some? && forall i :: 0 <= i < |b| ==> r.value[i] == a[0] - b[i]
    ensures |a| != |b| && |b| == 1 ==> r.Some? && forall i :: 0 <= i < |a| ==> r.value[i] == a[i] - b[0]
    ensures a == b ==> r.Some? && forall i :: 0 <= i < |r.value| ==> r.value[i] == 0.0
  {
    if |a| == |b| then Some(seq(|a|, i requires 0 <= i < |a| => a[i] - b[i]))
    else if |a| == 1 then Some(seq(|b|, i requires 0 <= i < |b| => a[0] - b[i]))
    else if |b| == 1 then Some(seq(|a|, i requires 0 <= i < |a| => a[i] - b[0]))
    else None
  }
}

/**
  The single-engine checks of the physics validator: conservation of energy
  and momentum, joint-limit satisfaction and numerical stability. Each check
  reads one engine's simulation data and returns a fresh result record.
 */
module PhysicsValidation {
  import opened Wrappers
  import opened Numerics
  import opened Seqs

  /** `self.tolerance`: the absolute tolerance on joint-limit violations. */
  const AbsoluteTolerance: real := 0.000001
  /** `self.relative_tolerance`: the tolerance on energy and momentum drift. */
  const RelativeTolerance: real := 0.001
  /** Added to norms and magnitudes before dividing by them. */
  const Epsilon: real := 0.000000000001
  /** A trace is stable only while every |velocity| stays below this. */
  const VelocityLimit: real := 1000.0
  /** ... and every |acceleration| below this. */
  const AccelerationLimit: real := 10000.0

  /** The `[min, max]` limit of one joint. */
  datatype Limit = Limit(lower: real, upper: real)

  /**
    One engine's simulation output. A series the data does not contain is the
    empty sequence, which is what `simulation_data.get(key, [])` yields.
   */
  datatype SimulationData = SimulationData(
    time: seq<real>,
    kineticEnergy: seq<real>,
    potentialEnergy: seq<real>,
    totalEnergy: seq<real>,
    linearMomentum: seq<seq<real>>,
    jointPositions: seq<seq<real>>,
    jointVelocities: seq<seq<real>>,
    jointAccelerations: seq<seq<real>>,
    jointLimits: map<int, Limit>)

  // ----- Conservation laws -----

  datatype ConservationResult = ConservationResult(
    energyConservation: bool,
    momentumConservation: bool,
    energyDrift: real,
    momentumDrift: real)

  /** The result before anything has been checked. */
  const NoConservation := ConservationResult(false, false, 0.0, 0.0)

  /** Time and the three energy series are all present and non-empty. */
  predicate HasEnergyData(data: SimulationData) {
    data.time != [] && data.kineticEnergy != [] && data.potentialEnergy != [] && data.totalEnergy != []
  }

  /**
    `validate_conservation_laws`. Energy drift is the relative change of total
    energy between the first and the last sample; momentum drift is the norm
    of the change of linear momentum relative to the initial norm (plus
    Epsilon). A zero initial energy raises ZeroDivisionError and a momentum
    pair numpy cannot subtract raises ValueError; both are caught, and the
    result keeps whatever had been filled in before.
   */
  function ValidateConservationLaws(data: SimulationData, sqrt: Sqrt): (r: ConservationResult)
    ensures !HasEnergyData(data) ==> r == NoConservation
    ensures HasEnergyData(data) && data.totalEnergy[0] == 0.0 ==> r == NoConservation
    ensures HasEnergyData(data) && data.totalEnergy[0] != 0.0 ==>
      var e0, e1 := data.totalEnergy[0], data.totalEnergy[|data.totalEnergy| - 1];
      && r.energyDrift == Abs(e1 - e0) / Abs(e0)
      && (r.energyConservation <==> Abs(e1 - e0) < RelativeTolerance * Abs(e0))
    ensures data.linearMomentum == [] ==> !r.momentumConservation && r.momentumDrift == 0.0
    ensures HasEnergyData(data) && data.totalEnergy[0] != 0.0 && data.linearMomentum != [] ==>
      var first, last := data.linearMomentum[0], data.linearMomentum[|data.linearMomentum| - 1];
      match BroadcastSub(last, first)
      case None => !r.momentumConservation && r.momentumDrift == 0.0
      case Some(change) =>
        && r.momentumDrift == Norm(change, sqrt) / (Norm(first, sqrt) + Epsilon)
        && (r.momentumConservation <==> r.momentumDrift < RelativeTolerance)
    ensures r.momentumConservation ==>
      HasEnergyData(data) && data.totalEnergy[0] != 0.0 && data.linearMomentum != [] && r.momentumDrift < RelativeTolerance
    ensures 0.0 <= r.energyDrift && 0.0 <= r.momentumDrift
  {
    if !HasEnergyData(data) then NoConservation
    else
      var e0, e1 := data.totalEnergy[0], data.totalEnergy[|data.totalEnergy| - 1];
      if e0 == 0.0 then NoConservation
      else
        var drift := Abs(e1 - e0) / Abs(e0);
        DriftBelowTolerance(e1 - e0, e0);
        var energy := NoConservation.(energyDrift := drift, energyConservation := drift < RelativeTolerance);
        if data.linearMomentum == [] then energy
        else
          var first, last := data.linearMomentum[0], data.linearMomentum[|data.linearMomentum| - 1];
          match BroadcastSub(last, first)
          case None => energy
          case Some(change) =>
            var momentumDrift := Norm(change, sqrt) / (Norm(first, sqrt) + Epsilon);
            energy.(momentumDrift := momentumDrift, momentumConservation := momentumDrift < RelativeTolerance)
  }

  /** Comparing the relative drift with the tolerance is comparing the change with a tolerance scaled by |E0|. */
  lemma DriftBelowTolerance(change: real, e0: real)
    requires e0 != 0.0
    ensures Abs(change) / Abs(e0) < RelativeTolerance <==> Abs(change) < RelativeTolerance * Abs(e0)
  {
    var q, a := Abs(change) / Abs(e0), Abs(e0);
    assert q * a == Abs(change);
    if q < RelativeTolerance {
      MultiplyStrict(q, RelativeTolerance, a);
    } else {
      MultiplyWeak(RelativeTolerance, q, a);
    }
  }

  lemma MultiplyStrict(x: real, y: real, a: real)
    requires x < y && 0.0 < a
    ensures x * a < y * a
  {
    assert (y - x) * a > 0.0;
  }

  lemma MultiplyWeak(x: real, y: real, a: real)
    requires x <= y && 0.0 < a
    ensures x * a <= y * a
  {
    assert (y - x) * a >= 0.0;
  }

  /** A trace whose total energy ends where it started conserves energy, with zero drift. */
  lemma ConstantEnergyIsConserved(data: SimulationData, sqrt: Sqrt)
    requires HasEnergyData(data) && data.totalEnergy[0] != 0.0
    requires data.totalEnergy[|data.totalEnergy| - 1] == data.totalEnergy[0]
    ensures ValidateConservationLaws(data, sqrt).energyConservation
    ensures ValidateConservationLaws(data, sqrt).energyDrift == 0.0
  {
  }

  /** A trace whose linear momentum ends where it started conserves momentum, with zero drift. */
  lemma ConstantMomentumIsConserved(data: SimulationData, sqrt: Sqrt)
    requires HasEnergyData(data) && data.totalEnergy[0] != 0.0
    requires data.linearMomentum != []
    requires data.linearMomentum[|data.linearMomentum| - 1] == data.linearMomentum[0]
    ensures ValidateConservationLaws(data, sqrt).momentumConservation
    ensures ValidateConservationLaws(data, sqrt).momentumDrift == 0.0
  {
    var first := data.linearMomentum[0];
    var change := BroadcastSub(first, first).value;
    assert Norm(change, sqrt) == 0.0;
    assert 0.0 < Norm(first, sqrt) + Epsilon;
  }

  // ----- Joint constraints -----

  /** One recorded limit violation. */
  datatype Violation = Violation(timestep: nat, joint: nat, position: real, violation: real)

  datatype ConstraintResult = ConstraintResult(violations: seq<Violation>, maxViolation: real, satisfied: bool)

  /** The result when positions or limits are missing. */
  const NoConstraints := ConstraintResult([], 0.0, false)

  predicate OutOfRange(pos: real, limit: Limit) {
    pos < limit.lower || pos > limit.upper
  }

  /** How far outside its limit a position lies: `max(min - pos, pos - max)`. */
  function Overshoot(pos: real, limit: Limit): (m: real)
    requires OutOfRange(pos, limit)
    ensures 0.0 < m
    ensures pos < limit.lower ==> limit.lower - pos <= m
    ensures pos > limit.upper ==> pos - limit.upper <= m
  {
    Max(limit.lower - pos, pos - limit.upper)
  }

  /** The record a joint contributes at one timestep: one violation, or nothing. */
  function JointCheck(t: nat, j: nat, pos: real, limits: map<int, Limit>): seq<Violation> {
    if j in limits && OutOfRange(pos, limits[j]) then [Violation(t, j, pos, Overshoot(pos, limits[j]))] else []
  }

  /** The violations of one row of joint positions at timestep `t`, in joint order. */
  function RowViolations(t: nat, row: seq<real>, limits: map<int, Limit>): seq<Violation>
    decreases |row|
  {
    if row == [] then []
    else RowViolations(t, row[..|row| - 1], limits) + JointCheck(t, |row| - 1, row[|row| - 1], limits)
  }

  /** The violations of a whole trace, timestep by timestep. */
  function TraceViolations(positions: seq<seq<real>>, limits: map<int, Limit>): seq<Violation>
    decreases |positions|
  {
    if positions == [] then []
    else
      var n := |positions| - 1;
      TraceViolations(positions[..n], limits) + RowViolations(n, positions[n], limits)
  }

  /** A row's records are all at timestep `t`, for joints of the row, in strictly increasing joint order. */
  lemma {:induction false} RowViolationsOrdered(t: nat, row: seq<real>, limits: map<int, Limit>)
    ensures forall v :: v in RowViolations(t, row, limits) ==> v.timestep == t && v.joint < |row|
    ensures JointsIncreasing(RowViolations(t, row, limits))
    decreases |row|
  {
    if row != [] {
      var n := |row| - 1;
      RowViolationsOrdered(t, row[..n], limits);
      var front := RowViolations(t, row[..n], limits);
      var last := JointCheck(t, n, row[n], limits);
      var vs := front + last;
      assert |last| <= 1 && forall v :: v in last ==> v.timestep == t && v.joint == n;
      assert JointsIncreasing(front);
      forall i, k | 0 <= i < k < |vs| ensures vs[i].joint < vs[k].joint {
        if k < |front| {
          assert vs[i] == front[i] && vs[k] == front[k];
        } else {
          assert vs[i] in front && vs[k] in last;
        }
      }
      assert vs == RowViolations(t, row, limits);
    }
  }

  /** A trace's records are at timesteps of the trace, in timestep-then-joint order. */
  lemma {:induction false} TraceViolationsOrdered(positions: seq<seq<real>>, limits: map<int, Limit>)
    ensures forall v :: v in TraceViolations(positions, limits) ==> v.timestep < |positions|
    ensures InTraceOrder(TraceViolations(positions, limits))
    decreases |positions|
  {
    if positions != [] {
      var n := |positions| - 1;
      TraceViolationsOrdered(positions[..n], limits);
      RowViolationsOrdered(n, positions[n], limits);
      var earlier := TraceViolations(positions[..n], limits);
      var last := RowViolations(n, positions[n], limits);
      var vs := earlier + last;
      assert InTraceOrder(earlier) && JointsIncreasing(last);
      forall i, k | 0 <= i < k < |vs| ensures Precedes(vs[i], vs[k]) {
        if k < |earlier| {
          assert vs[i] == earlier[i] && vs[k] == earlier[k];
        } else if i < |earlier| {
          assert vs[i] in earlier && vs[k] in last;
        } else {
          assert vs[i] == last[i - |earlier|] && vs[k] == last[k - |earlier|];
        }
      }
      assert vs == TraceViolations(positions, limits);
    }
  }

  lemma RowViolationsStep(t: nat, row: seq<real>, j: nat, limits: map<int, Limit>)
    requires j < |row|
    ensures RowViolations(t, row[..j + 1], limits) == RowViolations(t, row[..j], limits) + JointCheck(t, j, row[j], limits)
  {
    assert row[..j + 1][..j] == row[..j];
  }

  lemma TraceViolationsStep(positions: seq<seq<real>>, t: nat, limits: map<int, Limit>)
    requires t < |positions|
    ensures TraceViolations(positions[..t + 1], limits)
         == TraceViolations(positions[..t], limits) + RowViolations(t, positions[t][..|positions[t]|], limits)
  {
    assert positions[..t + 1][..t] == positions[..t];
    assert positions[t][..|positions[t]|] == positions[t];
  }

  predicate JointsIncreasing(vs: seq<Violation>) {
    forall i, k :: 0 <= i < k < |vs| ==> vs[i].joint < vs[k].joint
  }

  predicate InTraceOrder(vs: seq<Violation>) {
    forall i, k :: 0 <= i < k < |vs| ==> Precedes(vs[i], vs[k])
  }

  /** Timestep-then-joint order. */
  predicate Precedes(a: Violation, b: Violation) {
    a.timestep < b.timestep || (a.timestep == b.timestep && a.joint < b.joint)
  }

  /** The largest recorded violation, or 0.0 when there is none. */
  function MaxViolation(vs: seq<Violation>): (m: real)
    ensures vs == [] ==> m == 0.0
    ensures forall v :: v in vs ==> v.violation <= m
    ensures vs != [] ==> exists v :: v in vs && v.violation == m
  {
    if vs == [] then 0.0
    else if |vs| == 1 then vs[0].violation
    else
      var rest := MaxViolation(vs[1..]);
      assert forall v :: v in vs ==> v == vs[0] || v in vs[1..];
      Max(vs[0].violation, rest)
  }

  /**
    What `validate_joint_constraints` computes: the violations of the whole
    trace, the largest of them, and whether that stays below
    AbsoluteTolerance; NoConstraints when positions or limits are missing.
   */
  function JointConstraints(data: SimulationData): ConstraintResult {
    if data.jointPositions == [] || data.jointLimits == map[] then NoConstraints
    else
      var violations := TraceViolations(data.jointPositions, data.jointLimits);
      var maxViolation := MaxViolation(violations);
      ConstraintResult(violations, maxViolation, maxViolation < AbsoluteTolerance)
  }

  /**
    `validate_joint_constraints`: walks the trace timestep by timestep and
    joint by joint, recording a violation for each joint with a limit whose
    position lies outside it.
   */
  method ValidateJointConstraints(data: SimulationData) returns (r: ConstraintResult)
    ensures r == JointConstraints(data)
  {
    var positions, limits := data.jointPositions, data.jointLimits;
    if positions == [] || limits == map[] {
      return NoConstraints;
    }
    var violations: seq<Violation> := [];
    var t := 0;
    while t < |positions|
      invariant 0 <= t <= |positions|
      invariant violations == TraceViolations(positions[..t], limits)
    {
      ghost var before := violations;
      var row := positions[t];
      var j := 0;
      while j < |row|
        invariant 0 <= j <= |row|
        invariant violations == before + RowViolations(t, row[..j], limits)
      {
        var pos := row[j];
        ghost var check := JointCheck(t, j, pos, limits);
        ghost var earlier := violations;
        if j in limits {
          var limit := limits[j];
          if pos < limit.lower || pos > limit.upper {
            violations := violations + [Violation(t, j, pos, Overshoot(pos, limit))];
          }
        }
        assert violations == earlier + check;
        RowViolationsStep(t, row, j, limits);
        AppendAssociative(before, RowViolations(t, row[..j], limits), check);
        j := j + 1;
      }
      TraceViolationsStep(positions, t, limits);
      t := t + 1;
    }
    assert positions[..t] == positions;
    var maxViolation := 0.0;
    if violations != [] {
      maxViolation := MaxViolation(violations);
    }
    r := ConstraintResult(violations, maxViolation, maxViolation < AbsoluteTolerance);
  }

  /** Every recorded violation is a joint with a limit whose position at that timestep lies outside it. */
  lemma {:induction false} RowViolationSound(t: nat, row: seq<real>, limits: map<int, Limit>, v: Violation)
    requires v in RowViolations(t, row, limits)
    ensures v.timestep == t && v.joint < |row| && v.joint in limits
    ensures v.position == row[v.joint] && OutOfRange(v.position, limits[v.joint])
    ensures v.violation == Overshoot(v.position, limits[v.joint])
    decreases |row|
  {
    var n := |row| - 1;
    if v in RowViolations(t, row[..n], limits) {
      RowViolationSound(t, row[..n], limits, v);
    }
  }

  /** Every joint with a limit whose position lies outside it is recorded. */
  lemma {:induction false} RowViolationComplete(t: nat, row: seq<real>, limits: map<int, Limit>, j: nat)
    requires j < |row| && j in limits && OutOfRange(row[j], limits[j])
    ensures Violation(t, j, row[j], Overshoot(row[j], limits[j])) in RowViolations(t, row, limits)
    decreases |row|
  {
    var n := |row| - 1;
    if j < n {
      RowViolationComplete(t, row[..n], limits, j);
    }
  }

  lemma {:induction false} TraceViolationSound(positions: seq<seq<real>>, limits: map<int, Limit>, v: Violation)
    requires v in TraceViolations(positions, limits)
    ensures v.timestep < |positions| && v.joint < |positions[v.timestep]| && v.joint in limits
    ensures v.position == positions[v.timestep][v.joint] && OutOfRange(v.position, limits[v.joint])
    ensures v.violation == Overshoot(v.position, limits[v.joint])
    decreases |positions|
  {
    var n := |positions| - 1;
    if v in TraceViolations(positions[..n], limits) {
      TraceViolationSound(positions[..n], limits, v);
    } else {
      RowViolationSound(n, positions[n], limits, v);
    }
  }

  lemma {:induction false} TraceViolationComplete(positions: seq<seq<real>>, limits: map<int, Limit>, t: nat, j: nat)
    requires t < |positions| && j < |positions[t]| && j in limits && OutOfRange(positions[t][j], limits[j])
    ensures Violation(t, j, positions[t][j], Overshoot(positions[t][j], limits[j])) in TraceViolations(positions, limits)
    decreases |positions|
  {
    var n := |positions| - 1;
    if t < n {
      TraceViolationComplete(positions[..n], limits, t, j);
    } else {
      RowViolationComplete(n, positions[n], limits, j);
    }
  }

  /** No (timestep, joint) pair is recorded twice. */
  lemma AtMostOneRecordPerJoint(positions: seq<seq<real>>, limits: map<int, Limit>, i: nat, k: nat)
    requires i < k < |TraceViolations(positions, limits)|
    ensures TraceViolations(positions, limits)[i].timestep != TraceViolations(positions, limits)[k].timestep
         || TraceViolations(positions, limits)[i].joint != TraceViolations(positions, limits)[k].joint
  {
    TraceViolationsOrdered(positions, limits);
  }

  /**
    A (timestep, joint) pair has a violation record exactly when the joint has
    a limit and its position at that timestep lies outside it.
   */
  lemma ViolationsExactlyOutOfRange(data: SimulationData, t: nat, j: nat)
    requires data.jointPositions != [] && data.jointLimits != map[]
    ensures (exists v :: v in JointConstraints(data).violations && v.timestep == t && v.joint == j) <==>
      && t < |data.jointPositions| && j < |data.jointPositions[t]| && j in data.jointLimits
      && OutOfRange(data.jointPositions[t][j], data.jointLimits[j])
  {
    var positions, limits := data.jointPositions, data.jointLimits;
    if v :| v in JointConstraints(data).violations && v.timestep == t && v.joint == j {
      TraceViolationSound(positions, limits, v);
    }
    if t < |positions| && j < |positions[t]| && j in limits && OutOfRange(positions[t][j], limits[j]) {
      TraceViolationComplete(positions, limits, t, j);
    }
  }

  /**
    The constraints are satisfied exactly when there is data to check and
    every recorded violation is below AbsoluteTolerance.
   */
  lemma ConstraintsSatisfiedIff(data: SimulationData)
    ensures JointConstraints(data).satisfied <==>
      data.jointPositions != [] && data.jointLimits != map[]
      && forall v :: v in JointConstraints(data).violations ==> v.violation < AbsoluteTolerance
  {
    SatisfiedIffAllBelowTolerance(JointConstraints(data).violations);
  }

  /** The largest violation is below the tolerance exactly when every violation is. */
  lemma {:induction false} SatisfiedIffAllBelowTolerance(vs: seq<Violation>)
    ensures MaxViolation(vs) < AbsoluteTolerance <==> forall v :: v in vs ==> v.violation < AbsoluteTolerance
  {
    if vs != [] {
      var m := MaxViolation(vs);
      var w :| w in vs && w.violation == m;
    }
  }

  // ----- Numerical stability -----

  datatype StabilityResult = StabilityResult(stable: bool, maxVelocity: real, maxAcceleration: real, integrationError: real)

  /** The result when there is no velocity data or its maximum cannot be taken. */
  const NoStability := StabilityResult(false, 0.0, 0.0, 0.0)

  /** No row of a series is empty (an empty row makes `np.max` raise). */
  predicate NoEmptyRow(rows: seq<seq<real>>) {
    forall i :: 0 <= i < |rows| ==> rows[i] != []
  }

  /** Every entry of every row is below `bound` in magnitude. */
  predicate AllBelow(rows: seq<seq<real>>, bound: real) {
    forall i, j :: 0 <= i < |rows| && 0 <= j < |rows[i]| ==> Abs(rows[i][j]) < bound
  }

  /** `np.max(np.abs(row))`; None when the row is empty. */
  function RowAbsMax(row: seq<real>): (r: Option<real>)
    ensures r.None? <==> row == []
    ensures r.Some? ==> 0.0 <= r.value
    ensures r.Some? ==> forall j :: 0 <= j < |row| ==> Abs(row[j]) <= r.value
    ensures r.Some? ==> exists j :: 0 <= j < |row| && Abs(row[j]) == r.value
  {
    if row == [] then None
    else if |row| == 1 then Some(Abs(row[0]))
    else
      var rest := RowAbsMax(row[1..]).value;
      assert forall j :: 1 <= j < |row| ==> row[j] == row[1..][j - 1];
      Some(Max(Abs(row[0]), rest))
  }

  /**
    `max(np.max(np.abs(v)) for v in rows)`: the largest magnitude over all
    rows; None when there is no row or some row is empty (both raise).
   */
  function SeriesAbsMax(rows: seq<seq<real>>): (r: Option<real>)
    ensures r.None? <==> rows == [] || !NoEmptyRow(rows)
    ensures r.Some? ==> 0.0 <= r.value
    ensures r.Some? ==> forall i, j :: 0 <= i < |rows| && 0 <= j < |rows[i]| ==> Abs(rows[i][j]) <= r.value
    ensures r.Some? ==> exists i, j :: 0 <= i < |rows| && 0 <= j < |rows[i]| && Abs(rows[i][j]) == r.value
  {
    if rows == [] then None
    else
      var first := RowAbsMax(rows[0]);
      if first.None? then None
      else if |rows| == 1 then
        var j :| 0 <= j < |rows[0]| && Abs(rows[0][j]) == first.value;
        first
      else
        var rest := SeriesAbsMax(rows[1..]);
        assert forall i :: 1 <= i < |rows| ==> rows[i] == rows[1..][i - 1];
        if rest.None? then None
        else
          var i, j :| 0 <= i < |rows[1..]| && 0 <= j < |rows[1..][i]| && Abs(rows[1..][i][j]) == rest.value;
          assert Abs(rows[i + 1][j]) == rest.value;
          var j0 :| 0 <= j0 < |rows[0]| && Abs(rows[0][j0]) == first.value;
          Some(Max(first.value, rest.value))
  }

  /**
    `validate_numerical_stability`: the largest |velocity| and |acceleration|
    and whether they stay below VelocityLimit and AccelerationLimit. Missing
    accelerations count as 0.0; accelerations whose maximum cannot be taken
    leave the trace unstable with the velocity maximum already recorded.
   */
  function ValidateNumericalStability(data: SimulationData): (r: StabilityResult)
    ensures data.jointVelocities == [] ==> r == NoStability
    ensures SeriesAbsMax(data.jointVelocities).None? ==> r == NoStability
    ensures data.jointAccelerations != [] && SeriesAbsMax(data.jointAccelerations).None? ==>
      r.maxAcceleration == 0.0 && !r.stable
    ensures r.integrationError == 0.0 && 0.0 <= r.maxVelocity && 0.0 <= r.maxAcceleration
    ensures data.jointAccelerations == [] ==> r.maxAcceleration == 0.0
    ensures SeriesAbsMax(data.jointVelocities).Some? ==> r.maxVelocity == SeriesAbsMax(data.jointVelocities).value
    ensures SeriesAbsMax(data.jointAccelerations).Some? && SeriesAbsMax(data.jointVelocities).Some? ==>
      r.maxAcceleration == SeriesAbsMax(data.jointAccelerations).value
    ensures r.stable ==> r.maxVelocity < VelocityLimit && r.maxAcceleration < AccelerationLimit
  {
    var velocities, accelerations := data.jointVelocities, data.jointAccelerations;
    match SeriesAbsMax(velocities)
    case None => NoStability
    case Some(maxVel) =>
      if accelerations == [] then
        StabilityResult(maxVel < VelocityLimit && 0.0 < AccelerationLimit, maxVel, 0.0, 0.0)
      else
        match SeriesAbsMax(accelerations)
        case None => StabilityResult(false, maxVel, 0.0, 0.0)
        case Some(maxAcc) => StabilityResult(maxVel < VelocityLimit && maxAcc < AccelerationLimit, maxVel, maxAcc, 0.0)
  }

  /** The maximum of a series is below a bound exactly when every entry is. */
  lemma MaxBelowIffAllBelow(rows: seq<seq<real>>, bound: real)
    requires SeriesAbsMax(rows).Some?
    ensures SeriesAbsMax(rows).value < bound <==> AllBelow(rows, bound)
  {
    var m := SeriesAbsMax(rows).value;
    var i, j :| 0 <= i < |rows| && 0 <= j < |rows[i]| && Abs(rows[i][j]) == m;
  }

  /**
    A trace is stable exactly when it has velocity data, every series can be
    maximised, and every |velocity| and |acceleration| is below its limit.
   */
  lemma StableIffWithinLimits(data: SimulationData)
    ensures ValidateNumericalStability(data).stable <==>
      && data.jointVelocities != [] && NoEmptyRow(data.jointVelocities) && NoEmptyRow(data.jointAccelerations)
      && AllBelow(data.jointVelocities, VelocityLimit) && AllBelow(data.jointAccelerations, AccelerationLimit)
  {
    if SeriesAbsMax(data.jointVelocities).Some? {
      MaxBelowIffAllBelow(data.jointVelocities, VelocityLimit);
      if SeriesAbsMax(data.jointAccelerations).Some? {
        MaxBelowIffAllBelow(data.jointAccelerations, AccelerationLimit);
      }
    }
  }
}
