/**
  The engine classification table: every engine type the suite knows, its
  identifier, its functional category and its display name.
 */
module EngineCategories {

  /** What an engine is for. */
  datatype EngineCategory = Physics | Biomechanics | InputProcessing

  /** The members of the engine enumeration, in declaration order. */
  datatype EngineType =
    | MuJoCo | Drake | Pinocchio | Matlab2D | Matlab3D | Pendulum
    | OpenSim | MyoSim
    | OpenPose

  /** The (engine_id, category, display_name) payload of a member. */
  datatype EngineInfo = EngineInfo(engineId: string, category: EngineCategory, displayName: string)

  function Info(e: EngineType): EngineInfo {
    match e
    case MuJoCo => EngineInfo("mujoco", Physics, "MuJoCo Contact Dynamics")
    case Drake => EngineInfo("drake", Physics, "Drake Trajectory Optimization")
    case Pinocchio => EngineInfo("pinocchio", Physics, "Pinocchio Rigid Body")
    case Matlab2D => EngineInfo("matlab_2d", Physics, "MATLAB 2D Simscape")
    case Matlab3D => EngineInfo("matlab_3d", Physics, "MATLAB 3D Simscape")
    case Pendulum => EngineInfo("pendulum", Physics, "Simplified Pendulum")
    case OpenSim => EngineInfo("opensim", Biomechanics, "OpenSim Musculoskeletal")
    case MyoSim => EngineInfo("myosim", Biomechanics, "MyoSim Muscle Fiber")
    case OpenPose => EngineInfo("openpose", InputProcessing, "OpenPose Motion Capture")
  }

  function Category(e: EngineType): EngineCategory { Info(e).category }

  /** Iterating over the enumeration visits the members in this order. */
  const AllEngines: seq<EngineType> :=
    [MuJoCo, Drake, Pinocchio, Matlab2D, Matlab3D, Pendulum, OpenSim, MyoSim, OpenPose]

  /** The position of a member in declaration order. */
  function Ordinal(e: EngineType): nat {
    match e
    case MuJoCo => 0
    case Drake => 1
    case Pinocchio => 2
    case Matlab2D => 3
    case Matlab3D => 4
    case Pendulum => 5
    case OpenSim => 6
    case MyoSim => 7
    case OpenPose => 8
  }

  lemma EveryMemberListed(e: EngineType)
    ensures e in AllEngines
  {
    assert AllEngines[Ordinal(e)] == e;
  }

  lemma OrdinalIsPosition(i: nat)
    requires i < |AllEngines|
    ensures Ordinal(AllEngines[i]) == i
  {
  }

  predicate IsPhysicsEngine(e: EngineType) { Category(e) == Physics }
  predicate IsBiomechanicsEngine(e: EngineType) { Category(e) == Biomechanics }
  predicate IsInputProcessor(e: EngineType) { Category(e) == InputProcessing }

  /** Every member is in exactly one of the three categories. */
  lemma ExactlyOneCategory(e: EngineType)
    ensures IsPhysicsEngine(e) || IsBiomechanicsEngine(e) || IsInputProcessor(e)
    ensures !(IsPhysicsEngine(e) && IsBiomechanicsEngine(e))
    ensures !(IsPhysicsEngine(e) && IsInputProcessor(e))
    ensures !(IsBiomechanicsEngine(e) && IsInputProcessor(e))
  {
  }

  /** No two members share an engine identifier. */
  lemma EngineIdsDistinct(a: EngineType, b: EngineType)
    requires Info(a).engineId == Info(b).engineId
    ensures a == b
  {
  }

  /** A sequence lists members strictly in declaration order (so without repetition). */
  predicate InDeclarationOrder(s: seq<EngineType>) {
    forall i, j :: 0 <= i < j < |s| ==> Ordinal(s[i]) < Ordinal(s[j])
  }

  /** The members of `s` whose category is `c`, in the order of `s`. */
  function Select(s: seq<EngineType>, c: EngineCategory): seq<EngineType> {
    if s == [] then []
    else if Category(s[0]) == c then [s[0]] + Select(s[1..], c)
    else Select(s[1..], c)
  }

  /** Selecting keeps exactly the members of category `c`. */
  lemma {:induction false} SelectMembers(s: seq<EngineType>, c: EngineCategory)
    ensures forall e :: e in Select(s, c) <==> e in s && Category(e) == c
  {
    if s != [] {
      SelectMembers(s[1..], c);
      assert s == [s[0]] + s[1..];
    }
  }

  /** Selecting keeps the order of the source sequence. */
  lemma {:induction false} SelectKeepsOrder(s: seq<EngineType>, c: EngineCategory)
    requires InDeclarationOrder(s)
    ensures InDeclarationOrder(Select(s, c))
  {
    if s != [] {
      var rest := Select(s[1..], c);
      SelectKeepsOrder(s[1..], c);
      SelectMembers(s[1..], c);
      forall e | e in rest ensures Ordinal(s[0]) < Ordinal(e) {
        var k :| 0 <= k < |s[1..]| && s[1..][k] == e;
        assert s[k + 1] == e;
      }
    }
  }

  /** `get_by_category(c)`: exactly the members of category `c`, in declaration order. */
  function GetByCategory(c: EngineCategory): (r: seq<EngineType>)
    ensures forall e :: e in r <==> Category(e) == c
    ensures InDeclarationOrder(r)
  {
    forall e ensures e in AllEngines { EveryMemberListed(e); }
    assert InDeclarationOrder(AllEngines) by {
      forall i, j | 0 <= i < j < |AllEngines| ensures Ordinal(AllEngines[i]) < Ordinal(AllEngines[j]) {
        OrdinalIsPosition(i);
        OrdinalIsPosition(j);
      }
    }
    SelectKeepsOrder(AllEngines, c);
    SelectMembers(AllEngines, c);
    Select(AllEngines, c)
  }

  function GetPhysicsEngines(): seq<EngineType> { GetByCategory(Physics) }
  function GetBiomechanicsEngines(): seq<EngineType> { GetByCategory(Biomechanics) }
  function GetInputProcessors(): seq<EngineType> { GetByCategory(InputProcessing) }

  /** The members of each category, listed. */
  lemma {:induction false} PhysicsMembers()
    ensures GetByCategory(Physics) == [MuJoCo, Drake, Pinocchio, Matlab2D, Matlab3D, Pendulum]
  {
    var all := AllEngines;
    assert all[8..] == [OpenPose];
    assert Select(all[8..], Physics) == [];
    assert all[7..] == [MyoSim] + all[8..];
    assert Select(all[7..], Physics) == [];
    assert all[6..] == [OpenSim] + all[7..];
    assert Select(all[6..], Physics) == [];
    assert all[5..] == [Pendulum] + all[6..];
    assert Select(all[5..], Physics) == [Pendulum];
    assert all[4..] == [Matlab3D] + all[5..];
    assert Select(all[4..], Physics) == [Matlab3D, Pendulum];
    assert all[3..] == [Matlab2D] + all[4..];
    assert Select(all[3..], Physics) == [Matlab2D, Matlab3D, Pendulum];
    assert all[2..] == [Pinocchio] + all[3..];
    assert Select(all[2..], Physics) == [Pinocchio, Matlab2D, Matlab3D, Pendulum];
    assert all[1..] == [Drake] + all[2..];
    assert Select(all[1..], Physics) == [Drake, Pinocchio, Matlab2D, Matlab3D, Pendulum];
    assert all[0..] == [MuJoCo] + all[1..];
    assert Select(all[0..], Physics) == [MuJoCo, Drake, Pinocchio, Matlab2D, Matlab3D, Pendulum];
    assert all[0..] == all;
  }

  lemma {:induction false} BiomechanicsMembers()
    ensures GetByCategory(Biomechanics) == [OpenSim, MyoSim]
  {
    var all := AllEngines;
    assert all[8..] == [OpenPose];
    assert Select(all[8..], Biomechanics) == [];
    assert all[7..] == [MyoSim] + all[8..];
    assert Select(all[7..], Biomechanics) == [MyoSim];
    assert all[6..] == [OpenSim] + all[7..];
    assert Select(all[6..], Biomechanics) == [OpenSim, MyoSim];
    assert all[5..] == [Pendulum] + all[6..];
    assert Select(all[5..], Biomechanics) == [OpenSim, MyoSim];
    assert all[4..] == [Matlab3D] + all[5..];
    assert Select(all[4..], Biomechanics) == [OpenSim, MyoSim];
    assert all[3..] == [Matlab2D] + all[4..];
    assert Select(all[3..], Biomechanics) == [OpenSim, MyoSim];
    assert all[2..] == [Pinocchio] + all[3..];
    assert Select(all[2..], Biomechanics) == [OpenSim, MyoSim];
    assert all[1..] == [Drake] + all[2..];
    assert Select(all[1..], Biomechanics) == [OpenSim, MyoSim];
    assert all[0..] == [MuJoCo] + all[1..];
    assert Select(all[0..], Biomechanics) == [OpenSim, MyoSim];
    assert all[0..] == all;
  }

  lemma {:induction false} InputProcessingMembers()
    ensures GetByCategory(InputProcessing) == [OpenPose]
  {
    var all := AllEngines;
    assert all[8..] == [OpenPose];
    assert Select(all[8..], InputProcessing) == [OpenPose];
    assert all[7..] == [MyoSim] + all[8..];
    assert Select(all[7..], InputProcessing) == [OpenPose];
    assert all[6..] == [OpenSim] + all[7..];
    assert Select(all[6..], InputProcessing) == [OpenPose];
    assert all[5..] == [Pendulum] + all[6..];
    assert Select(all[5..], InputProcessing) == [OpenPose];
    assert all[4..] == [Matlab3D] + all[5..];
    assert Select(all[4..], InputProcessing) == [OpenPose];
    assert all[3..] == [Matlab2D] + all[4..];
    assert Select(all[3..], InputProcessing) == [OpenPose];
    assert all[2..] == [Pinocchio] + all[3..];
    assert Select(all[2..], InputProcessing) == [OpenPose];
    assert all[1..] == [Drake] + all[2..];
    assert Select(all[1..], InputProcessing) == [OpenPose];
    assert all[0..] == [MuJoCo] + all[1..];
    assert Select(all[0..], InputProcessing) == [OpenPose];
    assert all[0..] == all;
  }

  /** The physics, biomechanics and input lists have 6, 2 and 1 members. */
  lemma CategoryListSizes()
    ensures |GetPhysicsEngines()| == 6
    ensures |GetBiomechanicsEngines()| == 2
    ensures |GetInputProcessors()| == 1
  {
    PhysicsMembers();
    BiomechanicsMembers();
    InputProcessingMembers();
  }

  /** Together the three lists hold every member, each in exactly one list. */
  lemma CategoryListsPartition(e: EngineType)
    ensures e in GetPhysicsEngines() || e in GetBiomechanicsEngines() || e in GetInputProcessors()
    ensures !(e in GetPhysicsEngines() && e in GetBiomechanicsEngines())
    ensures !(e in GetPhysicsEngines() && e in GetInputProcessors())
    ensures !(e in GetBiomechanicsEngines() && e in GetInputProcessors())
  {
    assert e in GetPhysicsEngines() <==> Category(e) == Physics;
    assert e in GetBiomechanicsEngines() <==> Category(e) == Biomechanics;
    assert e in GetInputProcessors() <==> Category(e) == InputProcessing;
  }
}
