/**
  The validation suite's driver and its Markdown report: every engine is run
  through the three single-engine checks, engines are compared when there are
  several, and the collected results are rendered line by line.
 */
module ValidationReport {
  import opened Wrappers
  import opened Numerics
  import opened Dicts
  import opened Text
  import opened Seqs
  import opened PhysicsValidation
  import opened EngineComparison

  /** The results stored under one key of the validation results. */
  datatype Section =
    | EngineResults(conservation: Option<ConservationResult>, constraints: Option<ConstraintResult>, stability: Option<StabilityResult>)
    | CrossEngine(comparison: ComparisonResult)

  /** The key under which the cross-engine comparison is stored. */
  const ComparisonKey: string := "comparison"

  // ----- The suite -----

  /** The three checks of one engine. */
  function EngineSection(data: SimulationData, sqrt: Sqrt): Section {
    EngineResults(Some(ValidateConservationLaws(data, sqrt)), Some(JointConstraints(data)), Some(ValidateNumericalStability(data)))
  }

  /** A check run on one engine's data. */
  type EngineCheck = SimulationData -> Section

  function CheckerOf(sqrt: Sqrt): EngineCheck {
    data => EngineSection(data, sqrt)
  }

  /**
    What `run_validation_suite` returns: one entry per engine, in the order of
    the input, followed by the comparison when there is more than one engine.
   */
  function SuiteResults(sims: Dict<string, SimulationData>, sqrt: Sqrt): Dict<string, Section> {
    var entries := MapValues(sims, CheckerOf(sqrt));
    if |sims| > 1 then Put(entries, ComparisonKey, CrossEngine(PairwiseComparison(sims, sqrt))) else entries
  }

  /** The body of the suite's loop: the three checks of one engine. */
  method CheckEngine(data: SimulationData, sqrt: Sqrt) returns (section: Section)
    ensures section == CheckerOf(sqrt)(data)
  {
    var conservation := ValidateConservationLaws(data, sqrt);
    var constraints := ValidateJointConstraints(data);
    var stability := ValidateNumericalStability(data);
    section := EngineResults(Some(conservation), Some(constraints), Some(stability));
  }

  /** `run_validation_suite`. */
  method RunValidationSuite(sims: Dict<string, SimulationData>, sqrt: Sqrt) returns (results: Dict<string, Section>)
    requires DistinctKeys(sims)
    ensures results == SuiteResults(sims, sqrt)
  {
    results := [];
    var k := 0;
    while k < |sims|
      invariant 0 <= k <= |sims|
      invariant results == MapValues(sims[..k], CheckerOf(sqrt))
    {
      var name, data := sims[k].0, sims[k].1;
      var section := CheckEngine(data, sqrt);
      results := Put(results, name, section);
      MapValuesSnoc(sims, CheckerOf(sqrt), k);
      k := k + 1;
    }
    assert sims[..k] == sims;
    if |sims| > 1 {
      var comparison := CompareEngines(sims, sqrt);
      results := Put(results, ComparisonKey, CrossEngine(comparison));
    }
  }

  /**
    With distinct engine names, none of them "comparison": the results list
    every engine in input order, then "comparison" exactly when there is more
    than one engine; each engine maps to its three checks and "comparison" to
    the pairwise comparison.
   */
  lemma SuiteLayout(sims: Dict<string, SimulationData>, sqrt: Sqrt)
    requires DistinctKeys(sims)
    requires ComparisonKey !in Keys(sims)
    ensures Keys(SuiteResults(sims, sqrt)) == if |sims| > 1 then Keys(sims) + [ComparisonKey] else Keys(sims)
    ensures forall k :: 0 <= k < |sims| ==> Get(SuiteResults(sims, sqrt), sims[k].0) == Some(EngineSection(sims[k].1, sqrt))
    ensures Get(SuiteResults(sims, sqrt), ComparisonKey) ==
      if |sims| > 1 then Some(CrossEngine(PairwiseComparison(sims, sqrt))) else None
  {
    var check := CheckerOf(sqrt);
    MapValuesKeys(sims, check);
    forall k | 0 <= k < |sims| ensures Get(SuiteResults(sims, sqrt), sims[k].0) == Some(EngineSection(sims[k].1, sqrt)) {
      MapValuesGet(sims, check, k);
      assert sims[k].0 in Keys(sims);
    }
  }

  // ----- The report -----

  /**
    The check and cross marks, spelled with the code points the source text
    holds for them.
   */
  const PassMark: string := "\U{E2}\U{153}\U{2026}"
  const FailMark: string := "\U{E2}\U{152}"

  function Mark(ok: bool): string {
    if ok then PassMark else FailMark
  }

  /**
    The lines a report starts with. Numbers are rendered by `format(x, places)`,
    standing for Python's fixed-point `f"{x:.<places>f}"`.
   */
  const Header: seq<string> := ["# Physics Validation Report", Repeat('=', 50), ""]

  function ConservationLines(c: ConservationResult, format: (real, nat) -> string): seq<string> {
    [ "### Conservation Laws",
      "- Energy Conservation: " + Mark(c.energyConservation),
      "- Energy Drift: " + format(c.energyDrift, 6),
      "- Momentum Conservation: " + Mark(c.momentumConservation),
      "- Momentum Drift: " + format(c.momentumDrift, 6),
      "" ]
  }

  function ConstraintLines(c: ConstraintResult, format: (real, nat) -> string): seq<string> {
    [ "### Joint Constraints",
      "- Constraint Satisfaction: " + Mark(c.satisfied),
      "- Max Violation: " + format(c.maxViolation, 6),
      "- Total Violations: " + NatToString(|c.violations|),
      "" ]
  }

  function StabilityLines(s: StabilityResult, format: (real, nat) -> string): seq<string> {
    [ "### Numerical Stability",
      "- Stable: " + Mark(s.stable),
      "- Max Velocity: " + format(s.maxVelocity, 3),
      "- Max Acceleration: " + format(s.maxAcceleration, 3),
      "" ]
  }

  function EngineHeading(name: string): string {
    "## " + Upper(name) + " Engine"
  }

  /** The section of one engine: its heading, then each check it has. */
  function EngineLines(name: string, section: Section, format: (real, nat) -> string): seq<string> {
    [EngineHeading(name), ""] +
    match section
    case CrossEngine(_) => []
    case EngineResults(conservation, constraints, stability) =>
      (if conservation.Some? then ConservationLines(conservation.value, format) else []) +
      (if constraints.Some? then ConstraintLines(constraints.value, format) else []) +
      (if stability.Some? then StabilityLines(stability.value, format) else [])
  }

  /** The engine sections of the entries, skipping the one named "comparison". */
  function EngineSections(entries: Dict<string, Section>, format: (real, nat) -> string): seq<string> {
    if entries == [] then []
    else
      var n := |entries| - 1;
      EngineSections(entries[..n], format) +
      (if entries[n].0 == ComparisonKey then [] else EngineLines(entries[n].0, entries[n].1, format))
  }

  lemma EngineSectionsStep(entries: Dict<string, Section>, k: nat, format: (real, nat) -> string)
    requires k < |entries|
    ensures EngineSections(entries[..k + 1], format) == EngineSections(entries[..k], format) +
      (if entries[k].0 == ComparisonKey then [] else EngineLines(entries[k].0, entries[k].1, format))
  {
    assert entries[..k + 1][..k] == entries[..k];
  }

  /** One `- <pair>: <score>` line per agreement, in insertion order. */
  function PairLines(agreements: Dict<string, real>, format: (real, nat) -> string): seq<string> {
    if agreements == [] then []
    else
      var n := |agreements| - 1;
      PairLines(agreements[..n], format) + ["- " + agreements[n].0 + ": " + format(agreements[n].1, 3)]
  }

  /** An agreement block, present only when some pair was scored. */
  function AgreementBlock(heading: string, agreements: Dict<string, real>, format: (real, nat) -> string): seq<string> {
    if agreements == [] then [] else [heading] + PairLines(agreements, format) + [""]
  }

  /** The heading and the two summary bullets of the cross-engine section. */
  function ComparisonSummary(c: ComparisonResult): seq<string> {
    [ "## Cross-Engine Comparison",
      "",
      "- Engines Compared: " + Join(c.enginesCompared, ", "),
      "- Overall Agreement: " + Mark(c.overallAgreement),
      "" ]
  }

  function ComparisonLines(c: ComparisonResult, format: (real, nat) -> string): seq<string> {
    ComparisonSummary(c) +
    AgreementBlock(PositionHeading, c.positionAgreement, format) +
    AgreementBlock(VelocityHeading, c.velocityAgreement, format)
  }

  /**
    A "comparison" entry, if any, holds a comparison. Anything else makes the
    report raise KeyError on its missing 'engines_compared'.
   */
  predicate ComparisonEntryOk(data: Dict<string, Section>) {
    Get(data, ComparisonKey).Some? ==> Get(data, ComparisonKey).value.CrossEngine?
  }

  /** The lines of `generate_validation_report`, before they are joined. */
  function ReportLines(data: Dict<string, Section>, format: (real, nat) -> string): seq<string>
    requires ComparisonEntryOk(data)
  {
    Header + EngineSections(data, format) +
    match Get(data, ComparisonKey)
    case Some(section) => ComparisonLines(section.comparison, format)
    case None => []
  }

  /** The message of the KeyError raised when the "comparison" entry has no `engines_compared`. */
  const MissingEnginesCompared: string := "'engines_compared'"

  /**
    `generate_validation_report`: the report lines joined with newlines, or
    the KeyError raised when the "comparison" entry holds an engine's results.
   */
  method GenerateValidationReport(data: Dict<string, Section>, format: (real, nat) -> string) returns (report: Result<string, string>)
    ensures ComparisonEntryOk(data) ==> report == Success(Join(ReportLines(data, format), "\n"))
    ensures !ComparisonEntryOk(data) ==> report == Failure(MissingEnginesCompared)
  {
    var lines := Header;
    var k := 0;
    while k < |data|
      invariant 0 <= k <= |data|
      invariant lines == Header + EngineSections(data[..k], format)
    {
      var name, results := data[k].0, data[k].1;
      ghost var piece := if name == ComparisonKey then [] else EngineLines(name, results, format);
      if name != ComparisonKey {
        lines := lines + EngineLines(name, results, format);
      }
      EngineSectionsStep(data, k, format);
      AppendAssociative(Header, EngineSections(data[..k], format), piece);
      k := k + 1;
    }
    assert data[..k] == data;
    assert lines == Header + EngineSections(data, format);
    var comparison := Get(data, ComparisonKey);
    if comparison.Some? {
      if !comparison.value.CrossEngine? {
        return Failure(MissingEnginesCompared);
      }
      lines := AppendComparisonLines(lines, comparison.value.comparison, format);
      assert lines == Header + EngineSections(data, format) + ComparisonLines(comparison.value.comparison, format);
    }
    assert lines == ReportLines(data, format);
    report := Success(Join(lines, "\n"));
  }

  /** The cross-engine part of the report. */
  method AppendComparisonLines(lines: seq<string>, c: ComparisonResult, format: (real, nat) -> string)
    returns (out: seq<string>)
    ensures out == lines + ComparisonLines(c, format)
  {
    out := AppendAgreementBlock(lines + ComparisonSummary(c), PositionHeading, c.positionAgreement, format);
    out := AppendAgreementBlock(out, VelocityHeading, c.velocityAgreement, format);
  }

  /** The loop over `agreements.items()` behind one agreement block. */
  method AppendAgreementBlock(lines: seq<string>, heading: string, agreements: Dict<string, real>, format: (real, nat) -> string)
    returns (out: seq<string>)
    ensures out == lines + AgreementBlock(heading, agreements, format)
  {
    out := lines;
    if agreements != [] {
      out := out + [heading];
      var k := 0;
      while k < |agreements|
        invariant 0 <= k <= |agreements|
        invariant out == lines + [heading] + PairLines(agreements[..k], format)
      {
        out := out + ["- " + agreements[k].0 + ": " + format(agreements[k].1, 3)];
        assert agreements[..k + 1][..k] == agreements[..k];
        k := k + 1;
      }
      assert agreements[..k] == agreements;
      out := out + [""];
    }
  }

  // ----- What the report contains -----

  /** A line of an engine section: blank, a bullet, a check heading, or an engine heading. */
  predicate EngineSectionLine(line: string) {
    line == "" || line[0] == '-'
    || line in ["### Conservation Laws", "### Joint Constraints", "### Numerical Stability"]
    || (|line| >= 3 && line[..3] == "## " && line[|line| - 1] == 'e')
  }

  lemma ConservationLinesShape(c: ConservationResult, format: (real, nat) -> string)
    ensures forall line :: line in ConservationLines(c, format) ==> EngineSectionLine(line)
  {
  }

  lemma ConstraintLinesShape(c: ConstraintResult, format: (real, nat) -> string)
    ensures forall line :: line in ConstraintLines(c, format) ==> EngineSectionLine(line)
  {
  }

  lemma StabilityLinesShape(s: StabilityResult, format: (real, nat) -> string)
    ensures forall line :: line in StabilityLines(s, format) ==> EngineSectionLine(line)
  {
  }

  lemma EngineLinesShape(name: string, section: Section, format: (real, nat) -> string)
    ensures forall line :: line in EngineLines(name, section, format) ==> EngineSectionLine(line)
  {
    var heading := EngineHeading(name);
    assert heading[..3] == "## " && heading[|heading| - 1] == 'e';
    if section.EngineResults? {
      if section.conservation.Some? { ConservationLinesShape(section.conservation.value, format); }
      if section.constraints.Some? { ConstraintLinesShape(section.constraints.value, format); }
      if section.stability.Some? { StabilityLinesShape(section.stability.value, format); }
    }
  }

  lemma {:induction false} EngineSectionsShape(entries: Dict<string, Section>, format: (real, nat) -> string)
    ensures forall line :: line in EngineSections(entries, format) ==> EngineSectionLine(line)
  {
    if entries != [] {
      var n := |entries| - 1;
      EngineSectionsShape(entries[..n], format);
      EngineLinesShape(entries[n].0, entries[n].1, format);
    }
  }

  lemma {:induction false} PairLinesAreBullets(agreements: Dict<string, real>, format: (real, nat) -> string)
    ensures forall line :: line in PairLines(agreements, format) ==> |line| > 0 && line[0] == '-'
  {
    if agreements != [] {
      PairLinesAreBullets(agreements[..|agreements| - 1], format);
    }
  }

  /** The cross-engine section appears exactly when the results hold a "comparison" entry. */
  lemma CrossEngineSectionIff(data: Dict<string, Section>, format: (real, nat) -> string)
    requires ComparisonEntryOk(data)
    ensures "## Cross-Engine Comparison" in ReportLines(data, format) <==> ComparisonKey in Keys(data)
  {
    var heading := "## Cross-Engine Comparison";
    EngineSectionsShape(data, format);
    assert !EngineSectionLine(heading) by {
      assert heading[0] != '-' && heading[|heading| - 1] == 'n';
    }
    assert heading !in Header by {
      assert |Header[0]| != |heading| && |Header[1]| != |heading| && |Header[2]| != |heading|;
    }
    if Get(data, ComparisonKey).Some? {
      assert ReportLines(data, format)[|Header + EngineSections(data, format)|] == heading;
    }
  }

  /** Every line of an agreement block is its heading, a bullet or blank. */
  lemma AgreementBlockShape(heading: string, agreements: Dict<string, real>, format: (real, nat) -> string)
    ensures forall line :: line in AgreementBlock(heading, agreements, format) ==>
      line == heading || line == "" || (|line| > 0 && line[0] == '-')
  {
    PairLinesAreBullets(agreements, format);
  }

  const EnergyHeading: string := "### Energy Agreement"
  const PositionHeading: string := "### Position Agreement"
  const VelocityHeading: string := "### Velocity Agreement"

  /** A "###" heading other than the three check headings of an engine section. */
  predicate OtherSubheading(h: string) {
    |h| > 2 && h[0] == '#' && h[2] == '#'
    && h !in ["### Conservation Laws", "### Joint Constraints", "### Numerical Stability"]
  }

  lemma SubheadingNotInEngineSections(h: string, entries: Dict<string, Section>, format: (real, nat) -> string)
    requires OtherSubheading(h)
    ensures h !in EngineSections(entries, format)
  {
    EngineSectionsShape(entries, format);
    assert !EngineSectionLine(h) by {
      assert h[..3][2] == '#';
    }
  }

  lemma SubheadingNotInHeader(h: string)
    requires OtherSubheading(h)
    ensures h !in Header
  {
    assert Header[0][2] == 'P' && Header[1][0] == '=' && Header[2] == "";
  }

  lemma SubheadingNotInSummary(h: string, c: ComparisonResult)
    requires OtherSubheading(h)
    ensures h !in ComparisonSummary(c)
  {
    var summary := ComparisonSummary(c);
    assert summary[0][2] == ' ' && summary[2][0] == '-' && summary[3][0] == '-';
  }

  /** A heading is in an agreement block exactly when it is the block's own heading and some pair was scored. */
  lemma SubheadingInBlockIff(h: string, heading: string, agreements: Dict<string, real>, format: (real, nat) -> string)
    requires OtherSubheading(h)
    ensures h in AgreementBlock(heading, agreements, format) <==> h == heading && agreements != []
  {
    AgreementBlockShape(heading, agreements, format);
    if h == heading && agreements != [] {
      assert AgreementBlock(heading, agreements, format)[0] == h;
    }
  }

  lemma AgreementHeadingsDistinct()
    ensures OtherSubheading(EnergyHeading) && OtherSubheading(PositionHeading) && OtherSubheading(VelocityHeading)
    ensures EnergyHeading != PositionHeading && EnergyHeading != VelocityHeading && PositionHeading != VelocityHeading
  {
    assert EnergyHeading[4] == 'E' && PositionHeading[4] == 'P' && VelocityHeading[4] == 'V';
    assert |EnergyHeading| == 20 && |PositionHeading| == 22 && |VelocityHeading| == 22;
  }

  /** An agreement heading is in the report exactly when its block is. */
  lemma SubheadingInReportIff(h: string, data: Dict<string, Section>, format: (real, nat) -> string)
    requires OtherSubheading(h)
    requires ComparisonEntryOk(data)
    ensures h in ReportLines(data, format) <==>
      Get(data, ComparisonKey).Some? &&
      var c := Get(data, ComparisonKey).value.comparison;
      (h in AgreementBlock(PositionHeading, c.positionAgreement, format) ||
       h in AgreementBlock(VelocityHeading, c.velocityAgreement, format))
  {
    SubheadingNotInHeader(h);
    SubheadingNotInEngineSections(h, data, format);
    if Get(data, ComparisonKey).Some? {
      SubheadingNotInSummary(h, Get(data, ComparisonKey).value.comparison);
    }
  }

  /** Energy agreement is computed by the comparison but never reported. */
  lemma NoEnergyAgreementSection(data: Dict<string, Section>, format: (real, nat) -> string)
    requires ComparisonEntryOk(data)
    ensures EnergyHeading !in ReportLines(data, format)
  {
    AgreementHeadingsDistinct();
    SubheadingInReportIff(EnergyHeading, data, format);
    if Get(data, ComparisonKey).Some? {
      var c := Get(data, ComparisonKey).value.comparison;
      SubheadingInBlockIff(EnergyHeading, PositionHeading, c.positionAgreement, format);
      SubheadingInBlockIff(EnergyHeading, VelocityHeading, c.velocityAgreement, format);
    }
  }

  /**
    The position and velocity blocks are each printed exactly when the
    comparison holds at least one score for them.
   */
  lemma AgreementSectionsIff(data: Dict<string, Section>, format: (real, nat) -> string)
    requires ComparisonEntryOk(data)
    ensures PositionHeading in ReportLines(data, format) <==>
      Get(data, ComparisonKey).Some? && Get(data, ComparisonKey).value.comparison.positionAgreement != []
    ensures VelocityHeading in ReportLines(data, format) <==>
      Get(data, ComparisonKey).Some? && Get(data, ComparisonKey).value.comparison.velocityAgreement != []
  {
    AgreementHeadingsDistinct();
    SubheadingInReportIff(PositionHeading, data, format);
    SubheadingInReportIff(VelocityHeading, data, format);
    if Get(data, ComparisonKey).Some? {
      var c := Get(data, ComparisonKey).value.comparison;
      SubheadingInBlockIff(PositionHeading, PositionHeading, c.positionAgreement, format);
      SubheadingInBlockIff(PositionHeading, VelocityHeading, c.velocityAgreement, format);
      SubheadingInBlockIff(VelocityHeading, PositionHeading, c.positionAgreement, format);
      SubheadingInBlockIff(VelocityHeading, VelocityHeading, c.velocityAgreement, format);
    }
  }

  /** Each check's block is printed exactly when the engine's results hold that check. */
  lemma CheckSectionsIff(name: string, conservation: Option<ConservationResult>, constraints: Option<ConstraintResult>,
                         stability: Option<StabilityResult>, format: (real, nat) -> string)
    ensures var lines := EngineLines(name, EngineResults(conservation, constraints, stability), format);
      && ("### Conservation Laws" in lines <==> conservation.Some?)
      && ("### Joint Constraints" in lines <==> constraints.Some?)
      && ("### Numerical Stability" in lines <==> stability.Some?)
  {
    var hc, hk, ht := "### Conservation Laws", "### Joint Constraints", "### Numerical Stability";
    var heading, c, k, t := EngineLinesBlocks(name, conservation, constraints, stability, format);
    assert hc[4] == 'C' && hk[4] == 'J' && ht[4] == 'N';
    HeadingOfBlock(hc, heading, c, k, t, hc, hk, ht);
    HeadingOfBlock(hk, heading, c, k, t, hc, hk, ht);
    HeadingOfBlock(ht, heading, c, k, t, hc, hk, ht);
  }

  /** An engine section splits into its heading, a blank line and one block per check it holds. */
  lemma EngineLinesBlocks(name: string, conservation: Option<ConservationResult>, constraints: Option<ConstraintResult>,
                          stability: Option<StabilityResult>, format: (real, nat) -> string)
    returns (heading: string, c: seq<string>, k: seq<string>, t: seq<string>)
    ensures EngineLines(name, EngineResults(conservation, constraints, stability), format) == [heading, ""] + (c + k + t)
    ensures |heading| > 2 && heading[2] == ' '
    ensures (c != [] <==> conservation.Some?) && LedBy(c, "### Conservation Laws")
    ensures (k != [] <==> constraints.Some?) && LedBy(k, "### Joint Constraints")
    ensures (t != [] <==> stability.Some?) && LedBy(t, "### Numerical Stability")
  {
    heading := EngineHeading(name);
    c := if conservation.Some? then ConservationLines(conservation.value, format) else [];
    k := if constraints.Some? then ConstraintLines(constraints.value, format) else [];
    t := if stability.Some? then StabilityLines(stability.value, format) else [];
    CheckBlockHeadings(conservation, constraints, stability, format);
  }

  /** A block that, when present, starts with `heading` and continues with blank lines and bullets. */
  predicate LedBy(lines: seq<string>, heading: string) {
    lines != [] ==> lines[0] == heading && forall i :: 1 <= i < |lines| ==> lines[i] == "" || lines[i][0] == '-'
  }

  /** Which of three blocks, each led by its own heading, a "###" line can come from. */
  lemma HeadingOfBlock(x: string, engineHeading: string, c: seq<string>, k: seq<string>, t: seq<string>, hc: string, hk: string, ht: string)
    requires |x| > 2 && x[0] == '#' && x[2] == '#'
    requires |engineHeading| > 2 && engineHeading[2] == ' '
    requires LedBy(c, hc) && LedBy(k, hk) && LedBy(t, ht)
    ensures x in [engineHeading, ""] + (c + k + t) <==> (c != [] && x == hc) || (k != [] && x == hk) || (t != [] && x == ht)
  {
    assert x !in [engineHeading, ""];
    assert x in c <==> c != [] && x == hc;
    assert x in k <==> k != [] && x == hk;
    assert x in t <==> t != [] && x == ht;
  }

  /** Inside each check block, the only "###" line is the block's own heading. */
  lemma CheckBlockHeadings(conservation: Option<ConservationResult>, constraints: Option<ConstraintResult>,
                           stability: Option<StabilityResult>, format: (real, nat) -> string)
    ensures conservation.Some? ==> LedBy(ConservationLines(conservation.value, format), "### Conservation Laws")
    ensures constraints.Some? ==> LedBy(ConstraintLines(constraints.value, format), "### Joint Constraints")
    ensures stability.Some? ==> LedBy(StabilityLines(stability.value, format), "### Numerical Stability")
  {
  }


  lemma {:induction false} EngineSectionsListEngine(entries: Dict<string, Section>, format: (real, nat) -> string, k: nat)
    requires k < |entries| && entries[k].0 != ComparisonKey
    ensures EngineHeading(entries[k].0) in EngineSections(entries, format)
  {
    var n := |entries| - 1;
    if k < n {
      EngineSectionsListEngine(entries[..n], format, k);
    } else {
      assert EngineLines(entries[n].0, entries[n].1, format)[0] == EngineHeading(entries[k].0);
    }
  }

  /** Every entry other than "comparison" gets its own engine heading. */
  lemma EveryEngineHasHeading(data: Dict<string, Section>, format: (real, nat) -> string, k: nat)
    requires ComparisonEntryOk(data)
    requires k < |data| && data[k].0 != ComparisonKey
    ensures EngineHeading(data[k].0) in ReportLines(data, format)
  {
    EngineSectionsListEngine(data, format, k);
  }

  lemma {:induction false} PairLinesListPairs(agreements: Dict<string, real>, format: (real, nat) -> string, k: nat)
    requires k < |agreements|
    ensures "- " + agreements[k].0 + ": " + format(agreements[k].1, 3) in PairLines(agreements, format)
  {
    var n := |agreements| - 1;
    if k < n {
      PairLinesListPairs(agreements[..n], format, k);
    }
  }

  /** Every position and velocity agreement of the comparison gets its own line. */
  lemma EveryAgreementListed(data: Dict<string, Section>, format: (real, nat) -> string, pair: string)
    requires ComparisonEntryOk(data)
    requires Get(data, ComparisonKey).Some?
    ensures var c := Get(data, ComparisonKey).value.comparison;
      && (Get(c.positionAgreement, pair).Some? ==>
           "- " + pair + ": " + format(Get(c.positionAgreement, pair).value, 3) in ReportLines(data, format))
      && (Get(c.velocityAgreement, pair).Some? ==>
           "- " + pair + ": " + format(Get(c.velocityAgreement, pair).value, 3) in ReportLines(data, format))
  {
    var c := Get(data, ComparisonKey).value.comparison;
    if Get(c.positionAgreement, pair).Some? {
      GetEntry(c.positionAgreement, pair);
      var k :| 0 <= k < |c.positionAgreement| && c.positionAgreement[k] == (pair, Get(c.positionAgreement, pair).value);
      PairLinesListPairs(c.positionAgreement, format, k);
    }
    if Get(c.velocityAgreement, pair).Some? {
      GetEntry(c.velocityAgreement, pair);
      var k :| 0 <= k < |c.velocityAgreement| && c.velocityAgreement[k] == (pair, Get(c.velocityAgreement, pair).value);
      PairLinesListPairs(c.velocityAgreement, format, k);
    }
  }

  /** A suite run over distinctly named engines, none called "comparison", can always be reported. */
  lemma SuiteResultsReportable(sims: Dict<string, SimulationData>, sqrt: Sqrt)
    requires DistinctKeys(sims)
    requires ComparisonKey !in Keys(sims)
    ensures ComparisonEntryOk(SuiteResults(sims, sqrt))
  {
    SuiteLayout(sims, sqrt);
  }
}
