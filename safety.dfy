/** The safety standards a tank design answers to, the fixed register of
    safety requirements the designer builds, and the compliance matrix the
    design report prints from that register. */
module Safety {
  import opened Text

  /** The applicable standards, in the order the enumeration declares them. */
  datatype Standard =
    | Sans10131 | Api650 | Api653 | AsmeBpvcVIII | Iso9001
    | Sans1431 | Sans62_1 | Sans9956_3 | Sans9606_1 | Iso8501_1

  /** The printed name of each standard (the enumeration's values). */
  function Value(s: Standard): string {
    match s
    case Sans10131 => "SANS 10131:2004"
    case Api650 => "API 650"
    case Api653 => "API 653"
    case AsmeBpvcVIII => "ASME BPVC Section VIII"
    case Iso9001 => "ISO 9001"
    case Sans1431 => "SANS 1431"
    case Sans62_1 => "SANS 62-1"
    case Sans9956_3 => "SANS 9956-3"
    case Sans9606_1 => "SANS 9606-1"
    case Iso8501_1 => "ISO 8501-1"
  }

  /** Position of a standard in the declaration order. */
  function Rank(s: Standard): nat {
    match s
    case Sans10131 => 0
    case Api650 => 1
    case Api653 => 2
    case AsmeBpvcVIII => 3
    case Iso9001 => 4
    case Sans1431 => 5
    case Sans62_1 => 6
    case Sans9956_3 => 7
    case Sans9606_1 => 8
    case Iso8501_1 => 9
  }

  /** Iterating over the enumeration: every member once, in declaration order. */
  const AllStandards: seq<Standard> :=
    [Sans10131, Api650, Api653, AsmeBpvcVIII, Iso9001,
     Sans1431, Sans62_1, Sans9956_3, Sans9606_1, Iso8501_1]

  /** The enumeration lists each standard at its own rank. */
  lemma AllStandardsEnumerate()
    ensures |AllStandards| == 10
    ensures forall i :: 0 <= i < 10 ==> Rank(AllStandards[i]) == i
    ensures forall s :: Rank(s) < 10 && AllStandards[Rank(s)] == s
  {
  }

  datatype SafetyRequirement = SafetyRequirement(
    standard: Standard,
    requirementId: string,
    description: string,
    complianceStatus: bool,
    verificationMethod: string,
    inspectorRequired: bool)

  // ---------------------------------------------------------------------
  // The register built by the designer

  const Sans10131Requirements: seq<SafetyRequirement> := [
    SafetyRequirement(Sans10131, "4.1", "Bund wall construction and capacity",
      false, "Visual inspection and volume calculation", true),
    SafetyRequirement(Sans10131, "4.2", "Safety distances per Tables 1, 2, 3",
      false, "Distance measurement and verification", true),
    SafetyRequirement(Sans10131, "5.1", "Fire resistance requirements",
      false, "Fire authority consultation", true),
    SafetyRequirement(Sans10131, "6.1", "Venting requirements per API 2000",
      false, "Vent sizing calculation", true),
    SafetyRequirement(Sans10131, "A.4", "Pressure testing procedures",
      false, "Hydrostatic test performance", true)
  ]

  const Api650Requirements: seq<SafetyRequirement> := [
    SafetyRequirement(Api650, "5.3", "Shell plate thickness calculation",
      false, "Stress analysis verification", true),
    SafetyRequirement(Api650, "5.7", "Shell joint requirements",
      false, "Welding procedure qualification", true),
    SafetyRequirement(Api650, "5.10", "Nozzle reinforcement",
      false, "Reinforcement area calculation", true),
    SafetyRequirement(Api650, "8.1", "Welding requirements",
      false, "Welder qualification verification", true)
  ]

  const Iso9001Requirements: seq<SafetyRequirement> := [
    SafetyRequirement(Iso9001, "7.1", "Quality planning",
      false, "Quality plan documentation", false),
    SafetyRequirement(Iso9001, "7.5", "Documented information control",
      false, "Document control procedures", false),
    SafetyRequirement(Iso9001, "8.1", "Operational planning and control",
      false, "Process control verification", false),
    SafetyRequirement(Iso9001, "8.7", "Control of nonconforming outputs",
      false, "NCR system implementation", false)
  ]

  const MaterialRequirements: seq<SafetyRequirement> := [
    SafetyRequirement(Sans1431, "6.1", "Chemical composition requirements",
      false, "Mill test certificate verification", true),
    SafetyRequirement(Sans1431, "7.1", "Mechanical property requirements",
      false, "Tensile test verification", true)
  ]

  const WeldingRequirements: seq<SafetyRequirement> := [
    SafetyRequirement(Sans9956_3, "5.1", "Welding procedure specification",
      false, "WPS qualification and approval", true),
    SafetyRequirement(Sans9606_1, "4.1", "Welder qualification requirements",
      false, "Welder certification verification", true)
  ]

  const Register: seq<SafetyRequirement> :=
    Sans10131Requirements + Api650Requirements + Iso9001Requirements +
    MaterialRequirements + WeldingRequirements

  /** The register holds 17 requirements grouped by standard in the order
      SANS 10131 (5), API 650 (4), ISO 9001 (4), SANS 1431 (2),
      SANS 9956-3 (1), SANS 9606-1 (1); none is marked compliant yet, and an
      inspector is required for all but the ISO 9001 ones. */
  lemma RegisterLayout()
    ensures |Register| == 17
    ensures forall i :: 0 <= i < 5 ==> Register[i].standard == Sans10131
    ensures forall i :: 5 <= i < 9 ==> Register[i].standard == Api650
    ensures forall i :: 9 <= i < 13 ==> Register[i].standard == Iso9001
    ensures forall i :: 13 <= i < 15 ==> Register[i].standard == Sans1431
    ensures Register[15].standard == Sans9956_3 && Register[16].standard == Sans9606_1
    ensures forall i :: 0 <= i < |Register| ==> !Register[i].complianceStatus
    ensures forall i :: 0 <= i < |Register| ==>
      (!Register[i].inspectorRequired <==> Register[i].standard == Iso9001)
  {
  }

  // ---------------------------------------------------------------------
  // Grouping by standard

  /** The requirements of standard `s`, in the order of `reqs`. */
  function Filter(reqs: seq<SafetyRequirement>, s: Standard): seq<SafetyRequirement> {
    if reqs == [] then []
    else (if reqs[0].standard == s then [reqs[0]] else []) + Filter(reqs[1..], s)
  }

  /** Filtering keeps exactly the requirements of `s`, and drops the others. */
  lemma {:induction false} FilterMembers(reqs: seq<SafetyRequirement>, s: Standard)
    ensures |Filter(reqs, s)| <= |reqs|
    ensures forall r :: r in Filter(reqs, s) <==> r in reqs && r.standard == s
  {
    if reqs != [] {
      FilterMembers(reqs[1..], s);
      assert reqs == [reqs[0]] + reqs[1..];
    }
  }

  /** Filtering keeps the order of the register: it distributes over concatenation. */
  lemma {:induction false} FilterAppend(a: seq<SafetyRequirement>, b: seq<SafetyRequirement>, s: Standard)
    ensures Filter(a + b, s) == Filter(a, s) + Filter(b, s)
  {
    if a == [] {
      assert a + b == b;
    } else {
      assert (a + b)[1..] == a[1..] + b;
      FilterAppend(a[1..], b, s);
    }
  }

  /** The distinct standards that the requirements mention. */
  function Covered(reqs: seq<SafetyRequirement>): set<Standard> {
    set r | r in reqs :: r.standard
  }

  /** One section of the matrix: a standard and its requirements. */
  datatype Section = Section(standard: Standard, rows: seq<SafetyRequirement>)

  /** The standard of each section, in order. */
  function StandardsOf(secs: seq<Section>): seq<Standard> {
    seq(|secs|, k requires 0 <= k < |secs| => secs[k].standard)
  }

  /** The section printed for `s`, or none when `s` has no requirements. */
  function SectionFor(s: Standard, reqs: seq<SafetyRequirement>): seq<Section> {
    var rows := Filter(reqs, s);
    if rows == [] then [] else [Section(s, rows)]
  }

  /** The sections for the first `n` standards of the enumeration, in order. */
  function SectionsUpTo(n: nat, reqs: seq<SafetyRequirement>): seq<Section>
    requires n <= |AllStandards|
  {
    if n == 0 then [] else SectionsUpTo(n - 1, reqs) + SectionFor(AllStandards[n - 1], reqs)
  }

  /** Each section lists the (non-empty) requirements of its standard, and the
      sections follow the declaration order of the standards before rank `n`. */
  lemma {:induction false} SectionsUpToShape(n: nat, reqs: seq<SafetyRequirement>)
    requires n <= |AllStandards|
    ensures |SectionsUpTo(n, reqs)| <= n
    ensures forall k :: 0 <= k < |SectionsUpTo(n, reqs)| ==>
      SectionsUpTo(n, reqs)[k].rows == Filter(reqs, SectionsUpTo(n, reqs)[k].standard) &&
      SectionsUpTo(n, reqs)[k].rows != []
    ensures forall k :: 0 <= k < |SectionsUpTo(n, reqs)| ==> Rank(SectionsUpTo(n, reqs)[k].standard) < n
    ensures forall i, j :: 0 <= i < j < |SectionsUpTo(n, reqs)| ==>
      Rank(SectionsUpTo(n, reqs)[i].standard) < Rank(SectionsUpTo(n, reqs)[j].standard)
  {
    if n > 0 {
      SectionsUpToShape(n - 1, reqs);
      AllStandardsEnumerate();
      assert Rank(AllStandards[n - 1]) == n - 1;
    }
  }

  /** Every standard before rank `n` that has requirements has a section. */
  lemma {:induction false} SectionsUpToCover(n: nat, reqs: seq<SafetyRequirement>, t: Standard)
    requires n <= |AllStandards|
    requires Rank(t) < n && Filter(reqs, t) != []
    ensures t in StandardsOf(SectionsUpTo(n, reqs))
  {
    AllStandardsEnumerate();
    var before := SectionsUpTo(n - 1, reqs);
    var secs := SectionsUpTo(n, reqs);
    assert secs == before + SectionFor(AllStandards[n - 1], reqs);
    if Rank(t) == n - 1 {
      assert t == AllStandards[n - 1];
      assert StandardsOf(secs)[|before|] == t;
    } else {
      SectionsUpToCover(n - 1, reqs, t);
      var k :| 0 <= k < |before| && StandardsOf(before)[k] == t;
      assert StandardsOf(secs)[k] == t;
    }
  }

  /** The compliance matrix: one section per standard that has requirements,
      in declaration order. */
  function Matrix(reqs: seq<SafetyRequirement>): seq<Section> {
    SectionsUpTo(|AllStandards|, reqs)
  }

  /** Every section lists exactly the requirements of its standard, in
      register order, and is never empty; a standard gets a section exactly when
      some requirement names it; sections follow the declaration order. */
  lemma MatrixSections(reqs: seq<SafetyRequirement>)
    ensures forall k :: 0 <= k < |Matrix(reqs)| ==>
      Matrix(reqs)[k].rows == Filter(reqs, Matrix(reqs)[k].standard) && Matrix(reqs)[k].rows != []
    ensures forall s :: s in StandardsOf(Matrix(reqs)) <==> s in Covered(reqs)
    ensures forall i, j :: 0 <= i < j < |Matrix(reqs)| ==>
      Rank(Matrix(reqs)[i].standard) < Rank(Matrix(reqs)[j].standard)
  {
    AllStandardsEnumerate();
    SectionsUpToShape(|AllStandards|, reqs);
    var secs := Matrix(reqs);
    forall s ensures s in StandardsOf(secs) <==> s in Covered(reqs) {
      if s in Covered(reqs) {
        var r :| r in reqs && r.standard == s;
        FilterMembers(reqs, s);
        assert r in Filter(reqs, s);
        SectionsUpToCover(|AllStandards|, reqs, s);
      }
      if s in StandardsOf(secs) {
        var k :| 0 <= k < |secs| && secs[k].standard == s;
        var r := secs[k].rows[0];
        FilterMembers(reqs, s);
        assert r in Filter(reqs, s);
      }
    }
  }

  /** A sequence without repeats has as many distinct elements as positions. */
  lemma {:induction false} DistinctCount<T>(ss: seq<T>)
    requires forall i, j :: 0 <= i < j < |ss| ==> ss[i] != ss[j]
    ensures |set s | s in ss| == |ss|
  {
    if ss != [] {
      var init := ss[..|ss| - 1];
      DistinctCount(init);
      assert (set s | s in ss) == (set s | s in init) + {Last(ss)} by {
        assert ss == init + [Last(ss)];
      }
      assert Last(ss) !in init;
    }
  }

  /** The "Standards Coverage" count printed above the sections equals the
      number of sections below it. */
  lemma MatrixCoverageCount(reqs: seq<SafetyRequirement>)
    ensures |Covered(reqs)| == |Matrix(reqs)|
  {
    MatrixSections(reqs);
    var ss := StandardsOf(Matrix(reqs));
    DistinctCount(ss);
    assert (set s | s in ss) == Covered(reqs);
  }

  /** All requirements of the sections, section after section. */
  function Rows(secs: seq<Section>): seq<SafetyRequirement> {
    if secs == [] then [] else Rows(secs[..|secs| - 1]) + Last(secs).rows
  }

  /** The requirements whose standard comes before rank `n`, in register order. */
  function KeepBelow(reqs: seq<SafetyRequirement>, n: nat): seq<SafetyRequirement> {
    if reqs == [] then []
    else (if Rank(reqs[0].standard) < n then [reqs[0]] else []) + KeepBelow(reqs[1..], n)
  }

  lemma {:induction false} KeepBelowStep(reqs: seq<SafetyRequirement>, n: nat)
    requires n < |AllStandards|
    ensures multiset(KeepBelow(reqs, n + 1)) ==
      multiset(KeepBelow(reqs, n)) + multiset(Filter(reqs, AllStandards[n]))
  {
    AllStandardsEnumerate();
    if reqs != [] {
      KeepBelowStep(reqs[1..], n);
      assert Rank(reqs[0].standard) == n <==> reqs[0].standard == AllStandards[n];
    }
  }

  lemma {:induction false} KeepBelowBounds(reqs: seq<SafetyRequirement>)
    ensures KeepBelow(reqs, 0) == []
    ensures KeepBelow(reqs, |AllStandards|) == reqs
  {
    AllStandardsEnumerate();
    if reqs != [] {
      KeepBelowBounds(reqs[1..]);
      assert reqs == [reqs[0]] + reqs[1..];
    }
  }

  /** One more standard of the enumeration adds at most its own section. */
  lemma SectionsUpToStep(n: nat, reqs: seq<SafetyRequirement>)
    requires 0 < n <= |AllStandards|
    ensures SectionsUpTo(n, reqs) == SectionsUpTo(n - 1, reqs) + SectionFor(AllStandards[n - 1], reqs)
  {
  }

  lemma RowsSnoc(secs: seq<Section>, sec: Section)
    ensures Rows(secs + [sec]) == Rows(secs) + sec.rows
  {
    assert (secs + [sec])[..|secs|] == secs;
  }

  lemma SectionsUpToRowsStep(n: nat, reqs: seq<SafetyRequirement>)
    requires 0 < n <= |AllStandards|
    ensures multiset(Rows(SectionsUpTo(n, reqs))) ==
      multiset(Rows(SectionsUpTo(n - 1, reqs))) + multiset(Filter(reqs, AllStandards[n - 1]))
  {
    SectionsUpToStep(n, reqs);
    var before := SectionsUpTo(n - 1, reqs);
    var s := AllStandards[n - 1];
    var rows := Filter(reqs, s);
    if rows == [] {
      assert SectionsUpTo(n, reqs) == before;
      assert multiset(Rows(before)) + multiset(rows) == multiset(Rows(before));
    } else {
      RowsSnoc(before, Section(s, rows));
      assert SectionsUpTo(n, reqs) == before + [Section(s, rows)];
      assert Rows(SectionsUpTo(n, reqs)) == Rows(before) + rows;
    }
  }

  lemma {:induction false} SectionsUpToRows(n: nat, reqs: seq<SafetyRequirement>)
    requires n <= |AllStandards|
    ensures multiset(Rows(SectionsUpTo(n, reqs))) == multiset(KeepBelow(reqs, n))
  {
    if n == 0 {
      KeepBelowBounds(reqs);
    } else {
      var m := n - 1;
      SectionsUpToRows(m, reqs);
      KeepBelowStep(reqs, m);
      SectionsUpToRowsStep(m + 1, reqs);
    }
  }

  /** Every requirement of the register appears in the matrix exactly as often
      as in the register: the sections partition it. */
  lemma MatrixPartitions(reqs: seq<SafetyRequirement>)
    ensures multiset(Rows(Matrix(reqs))) == multiset(reqs)
  {
    SectionsUpToRows(|AllStandards|, reqs);
    KeepBelowBounds(reqs);
  }

  /** Every requirement of `reqs` belongs to `s`. */
  predicate Uniform(reqs: seq<SafetyRequirement>, s: Standard) {
    forall i :: 0 <= i < |reqs| ==> reqs[i].standard == s
  }

  /** A run of requirements of one standard filters to itself for that
      standard and to nothing for every other. */
  lemma {:induction false} FilterUniform(reqs: seq<SafetyRequirement>, s: Standard, t: Standard)
    requires Uniform(reqs, s)
    ensures Filter(reqs, t) == if t == s then reqs else []
  {
    if reqs != [] {
      FilterUniform(reqs[1..], s, t);
      assert reqs == [reqs[0]] + reqs[1..];
    }
  }

  lemma FilterSnoc(x: seq<SafetyRequirement>, f: seq<SafetyRequirement>, s: Standard, t: Standard)
    requires Uniform(f, s)
    ensures Filter(x + f, t) == if t == s then Filter(x, t) + f else Filter(x, t)
  {
    FilterAppend(x, f, t);
    FilterUniform(f, s, t);
    if t != s {
      assert Filter(x, t) + [] == Filter(x, t);
    }
  }

  /** Six runs laid out the way the register lays out its groups. */
  function Runs(a: seq<SafetyRequirement>, b: seq<SafetyRequirement>, c: seq<SafetyRequirement>,
                d: seq<SafetyRequirement>, e: seq<SafetyRequirement>, f: seq<SafetyRequirement>,
                t: Standard): seq<SafetyRequirement> {
    match t
    case Sans10131 => a
    case Api650 => b
    case Iso9001 => c
    case Sans1431 => d
    case Sans9956_3 => e
    case Sans9606_1 => f
    case _ => []
  }

  predicate RunsUniform(a: seq<SafetyRequirement>, b: seq<SafetyRequirement>, c: seq<SafetyRequirement>,
                        d: seq<SafetyRequirement>, e: seq<SafetyRequirement>, f: seq<SafetyRequirement>) {
    Uniform(a, Sans10131) && Uniform(b, Api650) && Uniform(c, Iso9001) &&
    Uniform(d, Sans1431) && Uniform(e, Sans9956_3) && Uniform(f, Sans9606_1)
  }

  lemma FilterRuns(a: seq<SafetyRequirement>, b: seq<SafetyRequirement>, c: seq<SafetyRequirement>,
                   d: seq<SafetyRequirement>, e: seq<SafetyRequirement>, f: seq<SafetyRequirement>, t: Standard)
    requires RunsUniform(a, b, c, d, e, f)
    ensures Filter(a + b + c + d + e + f, t) == Runs(a, b, c, d, e, f, t)
  {
    FilterUniform(a, Sans10131, t);
    FilterSnoc(a, b, Api650, t);
    FilterSnoc(a + b, c, Iso9001, t);
    FilterSnoc(a + b + c, d, Sans1431, t);
    FilterSnoc(a + b + c + d, e, Sans9956_3, t);
    FilterSnoc(a + b + c + d + e, f, Sans9606_1, t);
  }

  lemma RegisterRuns()
    ensures Register == Sans10131Requirements + Api650Requirements + Iso9001Requirements +
      MaterialRequirements + WeldingRequirements[..1] + WeldingRequirements[1..]
    ensures RunsUniform(Sans10131Requirements, Api650Requirements, Iso9001Requirements,
      MaterialRequirements, WeldingRequirements[..1], WeldingRequirements[1..])
  {
    assert WeldingRequirements == WeldingRequirements[..1] + WeldingRequirements[1..];
  }

  /** The requirements of the register that belong to `t`, in register order. */
  function RegisterRows(t: Standard): seq<SafetyRequirement> {
    Runs(Sans10131Requirements, Api650Requirements, Iso9001Requirements,
      MaterialRequirements, WeldingRequirements[..1], WeldingRequirements[1..], t)
  }

  lemma RegisterFilter(t: Standard)
    ensures Filter(Register, t) == RegisterRows(t)
  {
    RegisterRuns();
    FilterRuns(Sans10131Requirements, Api650Requirements, Iso9001Requirements,
      MaterialRequirements, WeldingRequirements[..1], WeldingRequirements[1..], t);
  }

  /** Requirements laid out in six non-empty runs cover exactly the six
      standards of the runs. */
  lemma CoveredOfRuns(a: seq<SafetyRequirement>, b: seq<SafetyRequirement>, c: seq<SafetyRequirement>,
                      d: seq<SafetyRequirement>, e: seq<SafetyRequirement>, f: seq<SafetyRequirement>)
    requires RunsUniform(a, b, c, d, e, f)
    requires a != [] && b != [] && c != [] && d != [] && e != [] && f != []
    ensures Covered(a + b + c + d + e + f) ==
      {Sans10131, Api650, Iso9001, Sans1431, Sans9956_3, Sans9606_1}
  {
    var reqs := a + b + c + d + e + f;
    var six := {Sans10131, Api650, Iso9001, Sans1431, Sans9956_3, Sans9606_1};
    forall t ensures t in Covered(reqs) <==> t in six {
      CoveredFilter(reqs, t);
      FilterRuns(a, b, c, d, e, f, t);
    }
  }

  /** A standard is covered exactly when filtering for it keeps something. */
  lemma CoveredFilter(reqs: seq<SafetyRequirement>, t: Standard)
    ensures t in Covered(reqs) <==> Filter(reqs, t) != []
  {
    FilterMembers(reqs, t);
    if Filter(reqs, t) != [] {
      var r := Filter(reqs, t)[0];
      assert r in Filter(reqs, t);
      assert r in reqs && r.standard == t;
    }
    if t in Covered(reqs) {
      var r :| r in reqs && r.standard == t;
      assert r in Filter(reqs, t);
    }
  }

  /** Each section of the matrix of six runs lists its own run. */
  lemma MatrixOfRuns(a: seq<SafetyRequirement>, b: seq<SafetyRequirement>, c: seq<SafetyRequirement>,
                     d: seq<SafetyRequirement>, e: seq<SafetyRequirement>, f: seq<SafetyRequirement>)
    requires RunsUniform(a, b, c, d, e, f)
    ensures forall k :: 0 <= k < |Matrix(a + b + c + d + e + f)| ==>
      Matrix(a + b + c + d + e + f)[k].rows == Runs(a, b, c, d, e, f, Matrix(a + b + c + d + e + f)[k].standard)
  {
    var reqs := a + b + c + d + e + f;
    forall t ensures Filter(reqs, t) == Runs(a, b, c, d, e, f, t) {
      FilterRuns(a, b, c, d, e, f, t);
    }
    MatrixSections(reqs);
  }

  lemma SixStandards()
    ensures |{Sans10131, Api650, Iso9001, Sans1431, Sans9956_3, Sans9606_1}| == 6
  {
  }

  /** The matrix of the register reports 17 requirements over 6 standards,
      SANS 10131, API 650, ISO 9001, SANS 1431, SANS 9956-3 and SANS 9606-1,
      and prints six sections; the section of each standard lists its run of
      the register (5, 4, 4, 2, 1 and 1 requirements). */
  lemma RegisterMatrix()
    ensures |Register| == 17
    ensures Covered(Register) == {Sans10131, Api650, Iso9001, Sans1431, Sans9956_3, Sans9606_1}
    ensures |Covered(Register)| == 6 && |Matrix(Register)| == 6
    ensures forall k :: 0 <= k < |Matrix(Register)| ==>
      Matrix(Register)[k].rows == RegisterRows(Matrix(Register)[k].standard)
    ensures |RegisterRows(Sans10131)| == 5 && |RegisterRows(Api650)| == 4
    ensures |RegisterRows(Iso9001)| == 4 && |RegisterRows(Sans1431)| == 2
    ensures |RegisterRows(Sans9956_3)| == 1 && |RegisterRows(Sans9606_1)| == 1
  {
    RegisterRuns();
    CoveredOfRuns(Sans10131Requirements, Api650Requirements, Iso9001Requirements,
      MaterialRequirements, WeldingRequirements[..1], WeldingRequirements[1..]);
    MatrixOfRuns(Sans10131Requirements, Api650Requirements, Iso9001Requirements,
      MaterialRequirements, WeldingRequirements[..1], WeldingRequirements[1..]);
    SixStandards();
    MatrixCoverageCount(Register);
  }

  // ---------------------------------------------------------------------
  // The text of the compliance matrix

  function InspectorLabel(required: bool): (shown: string)
    ensures shown == "Yes" <==> required
    ensures shown == "No" <==> !required
  {
    if required then "Yes" else "No"
  }

  function RowText(r: SafetyRequirement): string {
    "| " + r.requirementId + " | " + r.description + " | " + InspectorLabel(r.inspectorRequired) +
    " | " + r.verificationMethod + " |\n"
  }

  function RowsText(rows: seq<SafetyRequirement>): string {
    if rows == [] then "" else RowsText(rows[..|rows| - 1]) + RowText(Last(rows))
  }

  /** The column headings and rule of every section's table. */
  const TableHead: string :=
    "| Req ID | Description | Inspector Required | Verification Method |\n" +
    "|--------|-------------|--------------------|-------------------|\n"

  function SectionHeader(s: Standard, count: nat): string {
    "\n### " + Value(s) + "\nRequirements: " + NatToString(count) + "\n\n" + TableHead
  }

  function SectionText(sec: Section): string {
    SectionHeader(sec.standard, |sec.rows|) + RowsText(sec.rows)
  }

  function SectionsText(secs: seq<Section>): string {
    if secs == [] then "" else SectionsText(secs[..|secs| - 1]) + SectionText(Last(secs))
  }

  const MatrixTitle: string := "\n## SAFETY STANDARDS COMPLIANCE MATRIX\n\nTotal Safety Requirements: "

  function MatrixHeader(total: nat, standards: nat): string {
    MatrixTitle + NatToString(total) + "\nStandards Coverage: " + NatToString(standards) + " standards\n\n"
  }

  function MatrixText(reqs: seq<SafetyRequirement>): string {
    MatrixHeader(|reqs|, |Covered(reqs)|) + SectionsText(Matrix(reqs))
  }

  lemma SectionsTextSnoc(secs: seq<Section>, sec: Section)
    ensures SectionsText(secs + [sec]) == SectionsText(secs) + SectionText(sec)
  {
    assert (secs + [sec])[..|secs|] == secs;
  }

  /** The section printed for `standard`, or nothing when it has no requirements. */
  function SectionTextFor(standard: Standard, reqs: seq<SafetyRequirement>): string {
    var rows := Filter(reqs, standard);
    if rows == [] then "" else SectionText(Section(standard, rows))
  }

  /** The text of the sections up to rank `i + 1` extends the text up to rank `i`
      by the section of the `i`-th standard, if it has one. */
  lemma SectionsTextStep(i: nat, reqs: seq<SafetyRequirement>)
    requires i < |AllStandards|
    ensures SectionsText(SectionsUpTo(i + 1, reqs)) ==
      SectionsText(SectionsUpTo(i, reqs)) + SectionTextFor(AllStandards[i], reqs)
  {
    SectionsUpToStep(i + 1, reqs);
    var rows := Filter(reqs, AllStandards[i]);
    if rows == [] {
      assert SectionsUpTo(i + 1, reqs) == SectionsUpTo(i, reqs);
    } else {
      SectionsTextSnoc(SectionsUpTo(i, reqs), Section(AllStandards[i], rows));
    }
  }

  lemma Assoc(a: string, b: string, c: string)
    ensures a + b + c == a + (b + c)
  {
  }

  /** The table rows of one section appended to the report, one line per
      requirement in the order given. */
  method AppendRows(prefix: string, rows: seq<SafetyRequirement>) returns (report: string)
    ensures report == prefix + RowsText(rows)
  {
    report := prefix;
    var j := 0;
    while j < |rows|
      invariant 0 <= j <= |rows|
      invariant report == prefix + RowsText(rows[..j])
    {
      assert rows[..j + 1][..j] == rows[..j];
      Assoc(prefix, RowsText(rows[..j]), RowText(rows[j]));
      report := report + RowText(rows[j]);
      j := j + 1;
    }
    assert rows[..j] == rows;
  }

  /** One pass of the loop over the enumeration: the requirements of
      `standard`, and when there are any, its section header and its rows. */
  method AppendSection(prefix: string, standard: Standard, reqs: seq<SafetyRequirement>)
    returns (report: string)
    ensures report == prefix + SectionTextFor(standard, reqs)
  {
    report := prefix;
    var standardReqs := Filter(reqs, standard);
    if standardReqs != [] {
      report := AppendRows(report + SectionHeader(standard, |standardReqs|), standardReqs);
    }
  }

  /** The compliance-matrix part of the design report, accumulated the way
      the report accumulates it: a header giving the number of requirements
      and of covered standards, then one section per standard in declaration
      order. */
  method RenderComplianceMatrix(reqs: seq<SafetyRequirement>) returns (report: string)
    ensures report == MatrixText(reqs)
  {
    report := MatrixHeader(|reqs|, |Covered(reqs)|);
    ghost var header := report;
    var i := 0;
    while i < |AllStandards|
      invariant 0 <= i <= |AllStandards|
      invariant report == header + SectionsText(SectionsUpTo(i, reqs))
    {
      SectionsTextStep(i, reqs);
      ghost var done := SectionsText(SectionsUpTo(i, reqs));
      report := AppendSection(report, AllStandards[i], reqs);
      Assoc(header, done, SectionTextFor(AllStandards[i], reqs));
      i := i + 1;
    }
  }
}
