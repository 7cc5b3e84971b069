/** The parameters a professional tank design derives from the requested
    capacity: the dimensions (a standard size for the 8000-12000 L band, a
    2:1 horizontal cylinder otherwise), the shell thickness and the dished-end
    radii, the component table and the safety register.  Lengths are in mm,
    capacities in litres unless the name says m3, stresses in MPa. */
module Tank {
  import opened Text
  import opened Dict
  import Safety

  /** `math.pi` to the precision of a double. */
  const Pi: real := 3.141592653589793

  function Max(a: real, b: real): (m: real)
    ensures m >= a && m >= b
    ensures m == a || m == b
  {
    if a >= b then a else b
  }

  // ---------------------------------------------------------------------
  // Engineering constants set by the designer's constructor

  const DesignPressure: real := 2.5           // psig
  const DesignTemperature: real := 60.0       // degrees C
  const HydrostaticTestPressure: real := 1.5  // times the design pressure

  /** The safety factor of each component group.  The designer keeps them in
      a dictionary that is only ever read with these five keys. */
  datatype SafetyFactors = SafetyFactors(shell: real, ends: real, nozzles: real, supports: real, liftingLugs: real)

  const DefaultSafetyFactors: SafetyFactors := SafetyFactors(2.0, 2.0, 2.5, 3.0, 4.0)

  /** Plate properties in MPa, %, kg/m3; likewise a dictionary read by key. */
  datatype MaterialProperties = MaterialProperties(
    yieldStrength: real, tensileStrength: real, elongation: real,
    density: real, modulus: real, poissonRatio: real)

  /** SANS 1431 grade 300WA. */
  const Grade300WA: MaterialProperties := MaterialProperties(300.0, 430.0, 23.0, 7850.0, 200000.0, 0.3)

  const PsiToMpa: real := 0.00689476
  const JointEfficiency: real := 0.85     // radiographed butt joints
  const CorrosionAllowance: real := 1.5   // mm
  const MinimumThickness: real := 6.0     // mm

  // ---------------------------------------------------------------------
  // Dimensions

  /** The band of standard sizes, 8000 L to 12000 L inclusive. */
  predicate InStandardBand(capacityLiters: real) {
    8000.0 <= capacityLiters <= 12000.0
  }

  datatype Dimensions = Dimensions(diameter: real, length: real, actualCapacity: real)

  /** The argument whose cube root gives the diameter in metres of a 2:1
      cylinder holding `capacityLiters`: from V = pi D^3 / 2. */
  function CubeRootArgument(capacityLiters: real): real {
    capacityLiters / 1000.0 * 2.0 / Pi
  }

  /** Dimensions for a requested capacity.  The standard band selects the
      standard tank of 1870 mm by 3680 mm holding 9000 L whatever the exact
      request; any other capacity gets a cylinder twice as long as it is wide
      and keeps the requested capacity. */
  function OptimalDimensions(capacityLiters: real, cubeRoot: real -> real): (d: Dimensions)
    ensures InStandardBand(capacityLiters) ==>
      d.diameter == 1870.0 && d.length == 3680.0 && d.actualCapacity == 9000.0
    ensures !InStandardBand(capacityLiters) ==>
      d.length == 2.0 * d.diameter && d.actualCapacity == capacityLiters
    ensures !InStandardBand(capacityLiters) ==>
      d.diameter == cubeRoot(CubeRootArgument(capacityLiters)) * 1000.0
  {
    if InStandardBand(capacityLiters) then Dimensions(1870.0, 3680.0, 9000.0)
    else
      var diameter := cubeRoot(CubeRootArgument(capacityLiters)) * 1000.0;
      Dimensions(diameter, 2.0 * diameter, capacityLiters)
  }

  /** Within the band the request does not matter, nor does the cube root. */
  lemma StandardBandIgnoresRequest(c1: real, c2: real, cubeRoot1: real -> real, cubeRoot2: real -> real)
    requires InStandardBand(c1) && InStandardBand(c2)
    ensures OptimalDimensions(c1, cubeRoot1) == OptimalDimensions(c2, cubeRoot2)
  {
  }

  // ---------------------------------------------------------------------
  // Shell thickness: t = P R / (S E - 0.6 P) + CA

  /** S E - 0.6 P, for a design pressure in psig and an allowable stress of
      40 % of the yield strength. */
  function StressTerm(pressure: real, yieldStrength: real): real {
    yieldStrength * 0.4 * JointEfficiency - 0.6 * (pressure * PsiToMpa)
  }

  /** The hoop-stress thickness in mm for a pressure in MPa, a radius in
      metres and an allowable stress in MPa, plus the corrosion allowance. */
  function HoopThickness(pressureMpa: real, radiusM: real, allowableStress: real): real
    requires allowableStress * JointEfficiency - 0.6 * pressureMpa != 0.0
  {
    (pressureMpa * radiusM * 1000.0) / (allowableStress * JointEfficiency - 0.6 * pressureMpa) + CorrosionAllowance
  }

  /** The thickness the formula asks for a diameter in mm, a pressure in
      psig and a yield strength in MPa. */
  function CalculatedThickness(diameter: real, pressure: real, yieldStrength: real): real
    requires StressTerm(pressure, yieldStrength) != 0.0
  {
    HoopThickness(pressure * PsiToMpa, (diameter / 2.0) / 1000.0, yieldStrength * 0.4)
  }

  /** The shell thickness: the calculated thickness, but never less than the
      6 mm minimum. */
  function ShellThickness(diameter: real, pressure: real, yieldStrength: real): (t: real)
    requires StressTerm(pressure, yieldStrength) != 0.0
    ensures t >= MinimumThickness && t >= CalculatedThickness(diameter, pressure, yieldStrength)
    ensures t == MinimumThickness || t == CalculatedThickness(diameter, pressure, yieldStrength)
  {
    Max(CalculatedThickness(diameter, pressure, yieldStrength), MinimumThickness)
  }

  /** The report's "Selected Thickness" clamps the shell thickness again,
      which changes nothing. */
  lemma SelectedThicknessIdempotent(diameter: real, pressure: real, yieldStrength: real)
    requires StressTerm(pressure, yieldStrength) != 0.0
    ensures Max(ShellThickness(diameter, pressure, yieldStrength), MinimumThickness) ==
      ShellThickness(diameter, pressure, yieldStrength)
  {
  }

  /** At the design pressure and for the designer's steel the calculated
      thickness grows with the diameter, and it stays under the minimum up to
      a diameter of 50 m, so every tank up to that size (the standard one
      included) gets 6 mm. */
  lemma {:induction false} ShellThicknessForSteel(d1: real, d2: real)
    requires 0.0 <= d1 <= d2
    ensures StressTerm(DesignPressure, 300.0) > 0.0
    ensures CalculatedThickness(d1, DesignPressure, 300.0) <= CalculatedThickness(d2, DesignPressure, 300.0)
    ensures d2 <= 50000.0 ==> ShellThickness(d2, DesignPressure, 300.0) == MinimumThickness
  {
    var p := DesignPressure * PsiToMpa;
    var k := p / 2.0 / StressTerm(DesignPressure, 300.0);
    assert StressTerm(DesignPressure, 300.0) == 102.0 - 0.6 * p;
    assert k > 0.0;
    assert CalculatedThickness(d1, DesignPressure, 300.0) == k * d1 + CorrosionAllowance;
    assert CalculatedThickness(d2, DesignPressure, 300.0) == k * d2 + CorrosionAllowance;
    assert k * d1 <= k * d2;
    if d2 <= 50000.0 {
      assert k * 50000.0 < 4.5;
      assert k * d2 <= k * 50000.0;
    }
  }

  // ---------------------------------------------------------------------
  // Dished ends

  /** Knuckle radius 6 % of the diameter, but at least 60 mm. */
  function KnuckleRadius(diameter: real): (r: real)
    ensures r >= 60.0 && r >= diameter * 0.06
    ensures r == 60.0 || r == diameter * 0.06
  {
    Max(60.0, diameter * 0.06)
  }

  /** Beyond a diameter of 1000 mm the 6 % rule decides. */
  lemma KnuckleRadiusLargeTank(diameter: real)
    requires diameter >= 1000.0
    ensures KnuckleRadius(diameter) == diameter * 0.06
  {
  }

  /** The crown radius is the diameter (the lower end of D to 1.5 D). */
  function CrownRadius(diameter: real): (r: real)
    ensures diameter <= r <= 1.5 * diameter || diameter < 0.0
  {
    diameter
  }

  // ---------------------------------------------------------------------
  // Pipe wall thickness

  /** Standard wall thickness of NPS 1", 2" and 3" pipe. */
  const PipeThicknessTable: map<int, real> := map[25 := 2.87, 50 := 3.68, 80 := 5.49]

  /** The standard wall of a nominal size; any size not in the table gets the
      2" wall. */
  function PipeThickness(nominalSize: int): (t: real)
    ensures nominalSize == 25 ==> t == 2.87
    ensures nominalSize == 50 ==> t == 3.68
    ensures nominalSize == 80 ==> t == 5.49
    ensures nominalSize !in {25, 50, 80} ==> t == 3.68
  {
    if nominalSize in PipeThicknessTable then PipeThicknessTable[nominalSize] else 3.68
  }

  // ---------------------------------------------------------------------
  // Capacity verification in the report

  /** pi (D/2)^2 L with the lengths in metres. */
  function CylinderVolumeM3(diameter: real, length: real): real {
    Pi * (diameter / 2000.0) * (diameter / 2000.0) * (length / 1000.0)
  }

  function Abs(x: real): real {
    if x < 0.0 then -x else x
  }

  /** The report passes the capacity check when the cylinder volume is
      within 0.5 m3 of the requested capacity. */
  predicate CapacityMatches(d: Dimensions, capacityLiters: real) {
    Abs(CylinderVolumeM3(d.diameter, d.length) - capacityLiters / 1000.0) < 0.5
  }

  /** Outside the band, a cube root that is exact makes the volume of the
      designed cylinder equal the requested capacity, so the check passes. */
  lemma {:induction false} ExactCubeRootMatches(capacityLiters: real, cubeRoot: real -> real)
    requires !InStandardBand(capacityLiters)
    requires cubeRoot(CubeRootArgument(capacityLiters)) * cubeRoot(CubeRootArgument(capacityLiters)) *
      cubeRoot(CubeRootArgument(capacityLiters)) == CubeRootArgument(capacityLiters)
    ensures CylinderVolumeM3(OptimalDimensions(capacityLiters, cubeRoot).diameter,
      OptimalDimensions(capacityLiters, cubeRoot).length) == capacityLiters / 1000.0
    ensures CapacityMatches(OptimalDimensions(capacityLiters, cubeRoot), capacityLiters)
  {
    var r := cubeRoot(CubeRootArgument(capacityLiters));
    var d := OptimalDimensions(capacityLiters, cubeRoot);
    assert d.diameter == r * 1000.0 && d.length == 2.0 * r * 1000.0;
    assert CylinderVolumeM3(d.diameter, d.length) == Pi * (r / 2.0) * (r / 2.0) * (2.0 * r);
    assert Pi * (r / 2.0) * (r / 2.0) * (2.0 * r) == Pi * (r * r * r) / 2.0;
    assert Pi * CubeRootArgument(capacityLiters) / 2.0 == capacityLiters / 1000.0;
  }

  /** The standard tank holds about 10.107 m3: requests from 9700 L to
      10600 L pass the check, requests in the band below 9600 L or above
      10610 L fail it. */
  lemma StandardTankCapacityCheck(capacityLiters: real, cubeRoot: real -> real)
    requires InStandardBand(capacityLiters)
    ensures 9700.0 <= capacityLiters <= 10600.0 ==>
      CapacityMatches(OptimalDimensions(capacityLiters, cubeRoot), capacityLiters)
    ensures capacityLiters <= 9600.0 || capacityLiters >= 10610.0 ==>
      !CapacityMatches(OptimalDimensions(capacityLiters, cubeRoot), capacityLiters)
  {
    assert CylinderVolumeM3(1870.0, 3680.0) == Pi * 3.217148;
  }

  // ---------------------------------------------------------------------
  // The component table

  /** A dimension is a length in mm, a whole number (a nominal pipe size) or
      a label. */
  datatype DimValue = Measure(mm: real) | Whole(n: int) | Label(text: string)

  datatype TankComponent = TankComponent(
    name: string,
    material: string,
    dimensions: Entries<DimValue>,
    thickness: real,
    standardReference: string,
    safetyFactor: real,
    qualityRequirements: seq<string>,
    inspectionRequirements: seq<string>)

  const PlateMaterial: string := "Carbon Steel Plate Grade 300WA (SANS 1431)"

  const ShellQuality: seq<string> :=
    ["Mill Test Certificate required", "Chemical composition verification", "Mechanical property testing", "Surface finish Sa 2½ per ISO 8501-1"]
  const ShellInspection: seq<string> :=
    ["Visual inspection 100%", "Dimensional verification", "Surface preparation inspection", "Welding procedure qualification"]

  function ShellComponent(diameter: real, length: real, thickness: real, factor: real): TankComponent {
    TankComponent("Cylindrical Shell", PlateMaterial,
      [("diameter", Measure(diameter)), ("length", Measure(length)), ("thickness", Measure(thickness))],
      thickness, "SANS 10131:2004 Annex A.3.2", factor,
      ShellQuality, ShellInspection)
  }

  const DishedEndsQuality: seq<string> :=
    ["Formed from single plate", "Knuckle radius ≥ 50mm", "Crown radius between D and 1.5*D", "Straight flange ≥ 40mm"]
  const DishedEndsInspection: seq<string> :=
    ["Template verification", "Radius measurement", "Thickness verification", "Forming quality check"]

  function DishedEndsComponent(diameter: real, knuckle: real, crown: real, thickness: real, factor: real): TankComponent {
    TankComponent("Dished Ends (Ellipsoidal)", PlateMaterial,
      [("diameter", Measure(diameter)), ("knuckle_radius", Measure(knuckle)),
       ("crown_radius", Measure(crown)), ("thickness", Measure(thickness))],
      thickness, "SANS 10131:2004 Annex A.3.2.4", factor,
      DishedEndsQuality, DishedEndsInspection)
  }

  const ManholeDiameter: real := 600.0

  const ManholeQuality: seq<string> :=
    ["600mm diameter opening", "Reinforcing plate calculation per API 650", "Gasket groove machining", "Bolt hole pattern per SANS standard"]
  const ManholeInspection: seq<string> :=
    ["Dimensional verification", "Reinforcement adequacy check", "Machining quality inspection", "Gasket surface finish verification"]

  function ManholeComponent(factor: real): TankComponent {
    TankComponent("Manhole Assembly", "Carbon Steel Grade 300WA",
      [("diameter", Measure(ManholeDiameter)), ("neck_height", Measure(100.0)),
       ("flange_od", Measure(750.0)), ("flange_thickness", Measure(20.0)),
       ("reinforcing_plate_od", Measure(800.0)), ("reinforcing_plate_thickness", Measure(8.0))],
      20.0, "SANS 10131:2004 Annex A.3.4 & A.3.5", factor,
      ManholeQuality, ManholeInspection)
  }

  /** The saddles sit 29 % of the length from the centre. */
  function SaddlePosition(length: real): real {
    length * 0.29
  }

  const SaddleQuality: seq<string> :=
    ["120° contact angle", "Doubling plates under saddles", "Proper load distribution", "Foundation bolt holes"]
  const SaddleInspection: seq<string> :=
    ["Contact angle verification", "Load calculation check", "Doubling plate inspection", "Anchor bolt pattern check"]

  function SupportSaddlesComponent(length: real, factor: real): TankComponent {
    TankComponent("Support Saddles (Pair)", "Structural Steel Grade 300W",
      [("width", Measure(250.0)), ("height", Measure(600.0)), ("thickness", Measure(10.0)),
       ("contact_angle", Measure(120.0)), ("spacing", Measure(2140.0)),
       ("position_from_center", Measure(SaddlePosition(length)))],
      10.0, "SANS 10131:2004 Figure A.6", factor,
      SaddleQuality, SaddleInspection)
  }

  /** The lugs are 67 % of the length apart. */
  function LugSpacing(length: real): real {
    length * 0.67
  }

  const LugQuality: seq<string> :=
    ["Load calculation for empty tank", "50mm shackle hole", "Stress concentration analysis", "Lifting procedure documentation"]
  const LugInspection: seq<string> :=
    ["Load test calculation", "Hole diameter verification", "Stress analysis review", "Lifting procedure approval"]

  function LiftingLugsComponent(length: real, factor: real): TankComponent {
    TankComponent("Lifting Lugs (Pair)", "Structural Steel Grade 350W",
      [("height", Measure(90.0)), ("width", Measure(150.0)), ("thickness", Measure(12.0)),
       ("hole_diameter", Measure(50.0)), ("spacing", Measure(LugSpacing(length)))],
      12.0, "SANS 10131:2004 Figure A.5", factor,
      LugQuality, LugInspection)
  }

  datatype NozzleSpec = NozzleSpec(key: string, size: int, schedule: string, location: string)

  /** The nozzle specifications, in the order the dictionary lists them. */
  const NozzleSpecs: seq<NozzleSpec> := [
    NozzleSpec("fill_nozzle", 80, "Std", "top"),
    NozzleSpec("vent_nozzle", 50, "Std", "top"),
    NozzleSpec("outlet_nozzle", 50, "Std", "end"),
    NozzleSpec("drain_nozzle", 25, "Std", "bottom")
  ]

  /** A nozzle's display name: its key with underscores turned into spaces,
      each word then capitalised. */
  function NozzleTitle(key: string): string {
    TitleCase(ReplaceAll(key, "_", " "))
  }

  /** Character `i` of the display name of `key`. */
  function TitledKeyChar(key: string, i: nat): char
    requires i < |key|
  {
    TitledChar(if key[i] == '_' then ' ' else key[i], i > 0 && IsCased(key[i - 1]))
  }

  /** Character by character, a nozzle's display name is its key with each
      underscore a space and each letter upper-cased exactly when it starts
      a word. */
  lemma NozzleTitleChars(key: string)
    ensures |NozzleTitle(key)| == |key|
    ensures forall i :: 0 <= i < |key| ==> NozzleTitle(key)[i] == TitledKeyChar(key, i)
  {
    var spaced := ReplaceAll(key, "_", " ");
    ReplaceCharAt(key, '_', ' ');
    TitleFromAt(spaced, false);
  }

  /** Whether `title` agrees with the display name of `key` from index `i` on. */
  predicate TitleAgreesFrom(key: string, title: string, i: nat)
    requires |title| == |key|
    decreases |key| - i
  {
    i >= |key| || (title[i] == TitledKeyChar(key, i) && TitleAgreesFrom(key, title, i + 1))
  }

  /** Agreement from index `i` on holds at every index from `i` on. */
  lemma {:induction false} TitleAgreesAt(key: string, title: string, i: nat)
    requires |title| == |key| && TitleAgreesFrom(key, title, i)
    ensures forall j :: i <= j < |key| ==> title[j] == TitledKeyChar(key, j)
    decreases |key| - i
  {
    if i < |key| {
      TitleAgreesAt(key, title, i + 1);
    }
  }

  /** A title that agrees with the key character by character is its display name. */
  lemma NozzleTitleOf(key: string, title: string)
    requires |title| == |key| && TitleAgreesFrom(key, title, 0)
    ensures NozzleTitle(key) == title
  {
    NozzleTitleChars(key);
    TitleAgreesAt(key, title, 0);
    forall i | 0 <= i < |key| ensures NozzleTitle(key)[i] == title[i] { }
  }

  /** The display names of the four nozzles of the designer's table. */
  lemma FillNozzleTitle()
    ensures NozzleTitle("fill_nozzle") == "Fill Nozzle"
  {
    assert TitleAgreesFrom("fill_nozzle", "Fill Nozzle", 0);
    NozzleTitleOf("fill_nozzle", "Fill Nozzle");
  }

  lemma VentNozzleTitle()
    ensures NozzleTitle("vent_nozzle") == "Vent Nozzle"
  {
    assert TitleAgreesFrom("vent_nozzle", "Vent Nozzle", 0);
    NozzleTitleOf("vent_nozzle", "Vent Nozzle");
  }

  lemma OutletNozzleTitle()
    ensures NozzleTitle("outlet_nozzle") == "Outlet Nozzle"
  {
    assert TitleAgreesFrom("outlet_nozzle", "Outlet Nozzle", 0);
    NozzleTitleOf("outlet_nozzle", "Outlet Nozzle");
  }

  lemma DrainNozzleTitle()
    ensures NozzleTitle("drain_nozzle") == "Drain Nozzle"
  {
    assert TitleAgreesFrom("drain_nozzle", "Drain Nozzle", 0);
    NozzleTitleOf("drain_nozzle", "Drain Nozzle");
  }

  const NozzleQualityRest: seq<string> :=
    ["Standard wall thickness", "Flanged connections", "Proper nozzle reinforcement"]
  const NozzleInspection: seq<string> :=
    ["Pipe specification check", "Wall thickness verification", "Flange rating confirmation", "Reinforcement calculation"]

  function NozzleComponent(spec: NozzleSpec, factor: real): TankComponent {
    TankComponent(NozzleTitle(spec.key), "Carbon Steel Pipe Grade B (SANS 62-1)",
      [("nominal_size", Whole(spec.size)), ("schedule", Label(spec.schedule)),
       ("length", Measure(150.0)), ("flange_rating", Label("Table D"))],
      PipeThickness(spec.size), "SANS 62-1 & SANS 1123", factor,
      ["NPS " + IntToString(spec.size) + " pipe"] + NozzleQualityRest, NozzleInspection)
  }

  /** One table entry per nozzle specification, in order. */
  function NozzleEntries(specs: seq<NozzleSpec>, factor: real): (es: Entries<TankComponent>) {
    seq(|specs|, k requires 0 <= k < |specs| => (specs[k].key, NozzleComponent(specs[k], factor)))
  }

  lemma NozzleEntriesSnoc(specs: seq<NozzleSpec>, spec: NozzleSpec, factor: real)
    ensures NozzleEntries(specs + [spec], factor) ==
      NozzleEntries(specs, factor) + [(spec.key, NozzleComponent(spec, factor))]
  {
  }

  /** The five entries put before the nozzles, in order. */
  function FixedEntries(diameter: real, length: real, thickness: real, knuckle: real, crown: real,
                        factors: SafetyFactors): Entries<TankComponent>
  {
    [("shell", ShellComponent(diameter, length, thickness, factors.shell)),
     ("dished_ends", DishedEndsComponent(diameter, knuckle, crown, thickness, factors.ends)),
     ("manhole", ManholeComponent(factors.nozzles)),
     ("support_saddles", SupportSaddlesComponent(length, factors.supports)),
     ("lifting_lugs", LiftingLugsComponent(length, factors.liftingLugs))]
  }

  /** Every entry the component generator puts, in order: the five fixed
      components, then one per nozzle specification. */
  function ComponentEntries(diameter: real, length: real, thickness: real, knuckle: real, crown: real,
                            factors: SafetyFactors, nozzles: seq<NozzleSpec>): Entries<TankComponent>
  {
    seq(5 + |nozzles|, k requires 0 <= k < 5 + |nozzles| =>
      if k < 5 then FixedEntries(diameter, length, thickness, knuckle, crown, factors)[k]
      else NozzleEntries(nozzles, factors.nozzles)[k - 5])
  }

  /** The table is the fixed entries followed by the nozzle entries. */
  lemma ComponentEntriesSplit(diameter: real, length: real, thickness: real, knuckle: real, crown: real,
                              factors: SafetyFactors, nozzles: seq<NozzleSpec>)
    ensures ComponentEntries(diameter, length, thickness, knuckle, crown, factors, nozzles) ==
      FixedEntries(diameter, length, thickness, knuckle, crown, factors) + NozzleEntries(nozzles, factors.nozzles)
  {
    var all := ComponentEntries(diameter, length, thickness, knuckle, crown, factors, nozzles);
    var fixed := FixedEntries(diameter, length, thickness, knuckle, crown, factors);
    var rest := NozzleEntries(nozzles, factors.nozzles);
    assert |all| == |fixed + rest|;
    forall k | 0 <= k < |all| ensures all[k] == (fixed + rest)[k] {
      if k < 5 {
        assert (fixed + rest)[k] == fixed[k];
      } else {
        AppendIndex(fixed, rest, k - 5);
      }
    }
  }

  const FixedKeys: seq<string> := ["shell", "dished_ends", "manhole", "support_saddles", "lifting_lugs"]

  function SpecKeys(nozzles: seq<NozzleSpec>): (ks: seq<string>)
    ensures |ks| == |nozzles|
    ensures forall k :: 0 <= k < |nozzles| ==> ks[k] == nozzles[k].key
  {
    if nozzles == [] then [] else SpecKeys(nozzles[..|nozzles| - 1]) + [Last(nozzles).key]
  }

  const ComponentKeys: seq<string> := FixedKeys + [
    "fill_nozzle", "vent_nozzle", "outlet_nozzle", "drain_nozzle"
  ]

  /** The nine keys of the designed tank's table are distinct. */
  lemma ComponentKeysDistinct()
    ensures FixedKeys + SpecKeys(NozzleSpecs) == ComponentKeys
    ensures Distinct(ComponentKeys)
  {
  }

  lemma FixedEntriesKeys(diameter: real, length: real, thickness: real, knuckle: real, crown: real,
                         factors: SafetyFactors)
    ensures Keys(FixedEntries(diameter, length, thickness, knuckle, crown, factors)) == FixedKeys
  {
  }

  /** The generated entries carry the fixed keys, then the nozzle keys in
      the order of the specifications. */
  lemma {:induction false} ComponentTableKeys(diameter: real, length: real, thickness: real, knuckle: real,
                                              crown: real, factors: SafetyFactors, nozzles: seq<NozzleSpec>)
    ensures Keys(ComponentEntries(diameter, length, thickness, knuckle, crown, factors, nozzles)) ==
      FixedKeys + SpecKeys(nozzles)
  {
    var fixed := FixedEntries(diameter, length, thickness, knuckle, crown, factors);
    var nz := NozzleEntries(nozzles, factors.nozzles);
    ComponentEntriesSplit(diameter, length, thickness, knuckle, crown, factors, nozzles);
    KeysAppend(fixed, nz);
    FixedEntriesKeys(diameter, length, thickness, knuckle, crown, factors);
    assert Keys(nz) == SpecKeys(nozzles);
  }

  /** A table filled in from empty with entries carrying the nine component
      keys holds exactly those entries, in order. */
  lemma {:induction false} FillFromEmpty(es: Entries<TankComponent>)
    requires Keys(es) == ComponentKeys
    ensures Valid(PutAll(Empty(), es)) && Items(PutAll(Empty(), es)) == es
  {
    ComponentKeysDistinct();
    FillFresh(es);
  }

  lemma NozzleComponentFacts(spec: NozzleSpec, factor: real)
    ensures NozzleComponent(spec, factor).thickness == PipeThickness(spec.size)
    ensures NozzleComponent(spec, factor).safetyFactor == factor
    ensures NozzleComponent(spec, factor).dimensions[0] == ("nominal_size", Whole(spec.size))
  {
  }

  lemma AppendIndex<T>(a: seq<T>, b: seq<T>, k: int)
    requires 0 <= k < |b|
    ensures (a + b)[|a| + k] == b[k]
  {
  }

  /** The entries after the fixed five are the nozzles: each takes its key
      from its specification, its wall thickness from the pipe table and its
      safety factor from the nozzle factor. */
  lemma {:induction false} NozzleComponentsUsePipeTable(diameter: real, length: real, thickness: real, knuckle: real,
                                                        crown: real, factors: SafetyFactors,
                                                        nozzles: seq<NozzleSpec>, k: int)
    requires 0 <= k < |nozzles|
    ensures var e := ComponentEntries(diameter, length, thickness, knuckle, crown, factors, nozzles)[5 + k];
      e.0 == nozzles[k].key &&
      e.1.thickness == PipeThickness(nozzles[k].size) &&
      e.1.safetyFactor == factors.nozzles &&
      |e.1.dimensions| > 0 && e.1.dimensions[0] == ("nominal_size", Whole(nozzles[k].size))
  {
    var fixed := FixedEntries(diameter, length, thickness, knuckle, crown, factors);
    var nz := NozzleEntries(nozzles, factors.nozzles);
    ComponentEntriesSplit(diameter, length, thickness, knuckle, crown, factors, nozzles);
    AppendIndex(fixed, nz, k);
    NozzleComponentFacts(nozzles[k], factors.nozzles);
  }

  lemma PrefixIndex<T>(a: seq<T>, b: seq<T>)
    ensures |a + b| == |a| + |b|
    ensures forall k :: 0 <= k < |a| ==> (a + b)[k] == a[k]
  {
  }

  /** The first five entries are the fixed components, built from the shell
      thickness, the dimensions and their own safety factors (the manhole
      takes the nozzle factor). */
  lemma {:induction false} ComponentTableFixed(diameter: real, length: real, thickness: real, knuckle: real,
                                               crown: real, factors: SafetyFactors, nozzles: seq<NozzleSpec>)
    ensures var es := ComponentEntries(diameter, length, thickness, knuckle, crown, factors, nozzles);
      |es| == 5 + |nozzles| &&
      es[0].1 == ShellComponent(diameter, length, thickness, factors.shell) &&
      es[1].1 == DishedEndsComponent(diameter, knuckle, crown, thickness, factors.ends) &&
      es[2].1 == ManholeComponent(factors.nozzles) &&
      es[3].1 == SupportSaddlesComponent(length, factors.supports) &&
      es[4].1 == LiftingLugsComponent(length, factors.liftingLugs)
  {
    var fixed := FixedEntries(diameter, length, thickness, knuckle, crown, factors);
    var nz := NozzleEntries(nozzles, factors.nozzles);
    ComponentEntriesSplit(diameter, length, thickness, knuckle, crown, factors, nozzles);
    PrefixIndex(fixed, nz);
  }

  /** The shell and the dished ends have the shell thickness; the saddle
      position is 0.29 L and the lug spacing 0.67 L. */
  lemma FixedComponentDimensions(diameter: real, length: real, thickness: real, knuckle: real, crown: real,
                                 factor: real)
    ensures ShellComponent(diameter, length, thickness, factor).thickness == thickness
    ensures DishedEndsComponent(diameter, knuckle, crown, thickness, factor).thickness == thickness
    ensures DishedEndsComponent(diameter, knuckle, crown, thickness, factor).dimensions[1] ==
      ("knuckle_radius", Measure(knuckle))
    ensures SupportSaddlesComponent(length, factor).dimensions[5] == ("position_from_center", Measure(0.29 * length))
    ensures LiftingLugsComponent(length, factor).dimensions[4] == ("spacing", Measure(0.67 * length))
    ensures ManholeComponent(factor).dimensions[0] == ("diameter", Measure(600.0))
  {
  }

  /** The designed tank's nozzles: 80, 50, 50 and 25 NB, so 5.49, 3.68, 3.68
      and 2.87 mm walls. */
  lemma NozzleSpecThickness()
    ensures |NozzleSpecs| == 4
    ensures PipeThickness(NozzleSpecs[0].size) == 5.49
    ensures PipeThickness(NozzleSpecs[1].size) == 3.68
    ensures PipeThickness(NozzleSpecs[2].size) == 3.68
    ensures PipeThickness(NozzleSpecs[3].size) == 2.87
  {
  }

  /** Five puts in a row are a batch of five. */
  lemma PutFive<V>(d: Dict<V>, e1: (string, V), e2: (string, V), e3: (string, V), e4: (string, V),
                   e5: (string, V))
    ensures PutAll(d, [e1, e2, e3, e4, e5]) ==
      Put(Put(Put(Put(Put(d, e1.0, e1.1), e2.0, e2.1), e3.0, e3.1), e4.0, e4.1), e5.0, e5.1)
  {
    PutAllSnoc(d, [], e1.0, e1.1);
    assert [] + [e1] == [e1];
    PutAllSnoc(d, [e1], e2.0, e2.1);
    PutAllSnoc(d, [e1, e2], e3.0, e3.1);
    PutAllSnoc(d, [e1, e2, e3], e4.0, e4.1);
    PutAllSnoc(d, [e1, e2, e3, e4], e5.0, e5.1);
    assert [e1] + [e2] == [e1, e2];
    assert [e1, e2] + [e3] == [e1, e2, e3];
    assert [e1, e2, e3] + [e4] == [e1, e2, e3, e4];
    assert [e1, e2, e3, e4] + [e5] == [e1, e2, e3, e4, e5];
  }

  /** Filling an empty table with the designed tank's entries gives those
      entries, under the nine component keys. */
  lemma {:induction false} DesignedTable(diameter: real, length: real, thickness: real, knuckle: real,
                                         crown: real, factors: SafetyFactors)
    ensures var es := ComponentEntries(diameter, length, thickness, knuckle, crown, factors, NozzleSpecs);
      Keys(es) == ComponentKeys && Valid(PutAll(Empty(), es)) &&
      PutAll(Empty(), es).keys == ComponentKeys && Items(PutAll(Empty(), es)) == es
  {
    ComponentTableKeys(diameter, length, thickness, knuckle, crown, factors, NozzleSpecs);
    ComponentKeysDistinct();
    FillFromEmpty(ComponentEntries(diameter, length, thickness, knuckle, crown, factors, NozzleSpecs));
  }

  // ---------------------------------------------------------------------
  // The designer

  /** A tank designer for one requested capacity.  The constructor sets the
      engineering constants, derives the dimensions and fills the component
      table and the safety register. */
  class ProfessionalTankDesigner {
    const capacityLiters: real
    const capacityM3: real
    const safetyFactors: SafetyFactors
    const materialProperties: MaterialProperties
    const designPressure: real
    const designTemperature: real
    const hydrostaticTestPressure: real

    var tankDiameter: real
    var tankLength: real
    var actualCapacity: real
    var shellThickness: real
    var knuckleRadius: real
    var crownRadius: real

    var components: Dict<TankComponent>
    var safetyRequirements: seq<Safety.SafetyRequirement>
    var qualityChecklist: seq<string>

    /** A negative capacity has no real cube root: the designer then raises
        TypeError, because `max` cannot compare a complex number, so such a
        capacity is excluded here. */
    constructor (capacityLiters: real, cubeRoot: real -> real)
      requires 0.0 <= capacityLiters
      ensures this.capacityLiters == capacityLiters && capacityM3 == capacityLiters / 1000.0
      ensures safetyFactors == DefaultSafetyFactors && materialProperties == Grade300WA
      ensures designPressure == DesignPressure && designTemperature == DesignTemperature
      ensures hydrostaticTestPressure == HydrostaticTestPressure
      ensures Dimensions(tankDiameter, tankLength, actualCapacity) == OptimalDimensions(capacityLiters, cubeRoot)
      ensures shellThickness == ShellThickness(tankDiameter, DesignPressure, 300.0)
      ensures knuckleRadius == KnuckleRadius(tankDiameter) && crownRadius == CrownRadius(tankDiameter)
      ensures components == PutAll(Empty(), ComponentEntries(tankDiameter, tankLength, shellThickness,
                                   knuckleRadius, crownRadius, safetyFactors, NozzleSpecs))
      ensures safetyRequirements == Safety.Register
      ensures qualityChecklist == []
    {
      this.capacityLiters := capacityLiters;
      capacityM3 := capacityLiters / 1000.0;
      safetyFactors := DefaultSafetyFactors;
      materialProperties := Grade300WA;
      designPressure := DesignPressure;
      designTemperature := DesignTemperature;
      hydrostaticTestPressure := HydrostaticTestPressure;
      components := Empty();
      safetyRequirements := [];
      qualityChecklist := [];
      new;
      ShellThicknessForSteel(0.0, 0.0);
      CalculateOptimalDimensions(cubeRoot);
      GenerateComponentSpecifications();
      GenerateSafetyRequirements();
    }

    /** Chooses the dimensions for the requested capacity, then the shell
        thickness from the hoop-stress formula with the 6 mm floor, then the
        dished-end radii. */
    method CalculateOptimalDimensions(cubeRoot: real -> real)
      requires StressTerm(designPressure, materialProperties.yieldStrength) != 0.0
      modifies this`tankDiameter, this`tankLength, this`actualCapacity
      modifies this`shellThickness, this`knuckleRadius, this`crownRadius
      ensures Dimensions(tankDiameter, tankLength, actualCapacity) == OptimalDimensions(capacityLiters, cubeRoot)
      ensures shellThickness == ShellThickness(tankDiameter, designPressure, materialProperties.yieldStrength)
      ensures knuckleRadius == KnuckleRadius(tankDiameter) && crownRadius == CrownRadius(tankDiameter)
    {
      if 8000.0 <= capacityLiters <= 12000.0 {
        tankDiameter := 1870.0;
        tankLength := 3680.0;
        actualCapacity := 9000.0;
      } else {
        var volumeM3 := capacityLiters / 1000.0;
        tankDiameter := cubeRoot(volumeM3 * 2.0 / Pi) * 1000.0;
        tankLength := 2.0 * tankDiameter;
        actualCapacity := capacityLiters;
      }
      var pressureMpa := designPressure * PsiToMpa;
      var radiusM := (tankDiameter / 2.0) / 1000.0;
      var allowableStress := materialProperties.yieldStrength * 0.4;
      var calculatedThickness := (pressureMpa * radiusM * 1000.0) /
        (allowableStress * JointEfficiency - 0.6 * pressureMpa) + CorrosionAllowance;
      assert calculatedThickness == HoopThickness(pressureMpa, radiusM, allowableStress);
      shellThickness := Max(calculatedThickness, MinimumThickness);
      knuckleRadius := Max(60.0, tankDiameter * 0.06);
      crownRadius := tankDiameter;
    }

    /** Puts the five fixed components, then the nozzles, into the table. */
    method GenerateComponentSpecifications()
      modifies this`components
      ensures components == PutAll(old(components), ComponentEntries(tankDiameter, tankLength, shellThickness,
                                   knuckleRadius, crownRadius, safetyFactors, NozzleSpecs))
    {
      ghost var start := components;
      PutFixedComponents();
      PutNozzleComponents(NozzleSpecs);
      PutAllAppend(start, FixedEntries(tankDiameter, tankLength, shellThickness, knuckleRadius, crownRadius,
                                       safetyFactors), NozzleEntries(NozzleSpecs, safetyFactors.nozzles));
      ComponentEntriesSplit(tankDiameter, tankLength, shellThickness, knuckleRadius, crownRadius, safetyFactors,
                            NozzleSpecs);
    }

    /** The shell, the dished ends, the manhole, the saddles and the lugs, in
        that order. */
    method PutFixedComponents()
      modifies this`components
      ensures components == PutAll(old(components), FixedEntries(tankDiameter, tankLength, shellThickness,
                                   knuckleRadius, crownRadius, safetyFactors))
    {
      var factors := safetyFactors;
      var shell := ShellComponent(tankDiameter, tankLength, shellThickness, factors.shell);
      var dishedEnds := DishedEndsComponent(tankDiameter, knuckleRadius, crownRadius, shellThickness, factors.ends);
      var manhole := ManholeComponent(factors.nozzles);
      var saddles := SupportSaddlesComponent(tankLength, factors.supports);
      var lugs := LiftingLugsComponent(tankLength, factors.liftingLugs);
      PutFive(components, ("shell", shell), ("dished_ends", dishedEnds), ("manhole", manhole),
              ("support_saddles", saddles), ("lifting_lugs", lugs));
      components := Put(components, "shell", shell);
      components := Put(components, "dished_ends", dishedEnds);
      components := Put(components, "manhole", manhole);
      components := Put(components, "support_saddles", saddles);
      components := Put(components, "lifting_lugs", lugs);
    }

    /** Puts one component per nozzle specification, in order. */
    method PutNozzleComponents(nozzles: seq<NozzleSpec>)
      modifies this`components
      ensures components == PutAll(old(components), NozzleEntries(nozzles, safetyFactors.nozzles))
    {
      var i := 0;
      while i < |nozzles|
        invariant 0 <= i <= |nozzles|
        invariant components == PutAll(old(components), NozzleEntries(nozzles[..i], safetyFactors.nozzles))
      {
        var spec := nozzles[i];
        assert nozzles[..i + 1] == nozzles[..i] + [spec];
        NozzleEntriesSnoc(nozzles[..i], spec, safetyFactors.nozzles);
        PutAllSnoc(old(components), NozzleEntries(nozzles[..i], safetyFactors.nozzles),
                   spec.key, NozzleComponent(spec, safetyFactors.nozzles));
        components := Put(components, spec.key, NozzleComponent(spec, safetyFactors.nozzles));
        i := i + 1;
      }
      assert nozzles[..i] == nozzles;
    }

    /** The register: the SANS 10131, API 650, ISO 9001, material and
        welding requirements, concatenated in that order. */
    method GenerateSafetyRequirements()
      modifies this`safetyRequirements
      ensures safetyRequirements == Safety.Register
    {
      safetyRequirements := Safety.Sans10131Requirements + Safety.Api650Requirements +
        Safety.Iso9001Requirements + Safety.MaterialRequirements + Safety.WeldingRequirements;
    }

    /** The compliance-matrix section of the comprehensive report. */
    method ComplianceMatrixReport() returns (report: string)
      ensures report == Safety.MatrixText(safetyRequirements)
    {
      report := Safety.RenderComplianceMatrix(safetyRequirements);
    }
  }
}
