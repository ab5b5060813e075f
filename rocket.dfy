/**
 * The launch vehicle of the simulator, modelled after the four-stage SLS
 * Block 1: the literal stage table and the values derived from it, the
 * pre-launch fill of the first stage's tanks, and the throttle-to-thrust
 * mapping. Masses are in kg, thrusts in N, pressures in Pa.
 */
module Rocket {
  import opened Wrappers
  import opened Decimal

  /** numpy.mean of a two-element range. */
  function Mean(range: (real, real)): (m: real)
    ensures range.0 <= range.1 ==> range.0 <= m <= range.1
  {
    (range.0 + range.1) / 2.0
  }

  /** A fuel, oxidizer or solid-booster tank: fixed limits and current state. */
  datatype Propellant = Propellant(
    name: string,
    massMax: int,                 // MASS_MAX
    pressureRange: (real, real),  // PRESSURE_RANGE
    flowRateMax: real,            // FLOW_RATE_MAX, kg/s
    mass: int,
    pressure: real,
    flowRate: real)

  /** A freshly constructed Propellant(): every number zero, no name. */
  const NewPropellant: Propellant := Propellant("", 0, (0.0, 0.0), 0.0, 0, 0.0, 0.0)

  /** One stage of the vehicle; only the first stage carries solid boosters. */
  datatype Stage = Stage(
    thrustSea: real,              // THRUST_SEA
    thrustVac: real,              // THRUST_VAC
    ispSea: real,                 // ISP_SEA, s
    ispVac: real,                 // ISP_VAC, s
    mixture: real,                // oxidizer-to-fuel mass ratio
    propellantMass: int,
    deadMass: int,
    payloadMass: int,
    diameter: real,               // m
    area: real,                   // m^2
    dragCoefficient: real,
    fuel: Propellant,
    oxidizer: Propellant,
    srb: Option<Propellant>,
    totalMass: int)

  /** A freshly constructed Stage(): every constant zero. */
  const NewStage: Stage :=
    Stage(0.0, 0.0, 0.0, 0.0, 0.0, 0, 0, 0, 0.0, 0.0, 0.0, NewPropellant, NewPropellant, None, 0)

  /** The stages by name; the source finds them by the "stage" prefix of the attribute names. */
  datatype StageId = Stage1 | Stage2 | Stage3 | Stage4

  datatype Vehicle = Vehicle(
    flightPathAngle: real,        // degrees
    altitude: real,               // m
    velocity: real,               // m/s
    currentStage: StageId,
    stage1: Stage,
    stage2: Stage,
    stage3: Stage,
    stage4: Stage,
    stages: seq<StageId>)
  {
    function Get(id: StageId): Stage {
      match id
      case Stage1 => stage1
      case Stage2 => stage2
      case Stage3 => stage3
      case Stage4 => stage4
    }
  }

  /** The exact fuel part of a propellant mass split by mixture ratio. */
  function FuelPart(propellant: int, mixture: real): real
    requires mixture + 1.0 != 0.0
  {
    propellant as real / (mixture + 1.0)
  }

  /** The exact oxidizer part of a propellant mass split by mixture ratio. */
  function OxidizerPart(propellant: int, mixture: real): real
    requires mixture + 1.0 != 0.0
  {
    propellant as real * mixture / (mixture + 1.0)
  }

  /** The fuel tank limit: the fuel part, truncated. */
  function FuelShare(propellant: int, mixture: real): int
    requires mixture + 1.0 != 0.0
  {
    Trunc(FuelPart(propellant, mixture))
  }

  /** The oxidizer tank limit: the oxidizer part, truncated. */
  function OxidizerShare(propellant: int, mixture: real): int
    requires mixture + 1.0 != 0.0
  {
    Trunc(OxidizerPart(propellant, mixture))
  }

  /**
   * Truncating both shares loses less than two kilograms, so the two tank
   * limits add up to the propellant mass or one kilogram less.
   */
  lemma {:induction false} PropellantSplit(propellant: int, mixture: real)
    requires propellant >= 0 && mixture >= 0.0
    ensures 0 <= FuelShare(propellant, mixture) && 0 <= OxidizerShare(propellant, mixture)
    ensures propellant - 1 <= FuelShare(propellant, mixture) + OxidizerShare(propellant, mixture) <= propellant
  {
    var p, d := propellant as real, mixture + 1.0;
    assert FuelPart(propellant, mixture) >= 0.0 && OxidizerPart(propellant, mixture) >= 0.0 by {
      assert p * mixture >= 0.0;
      DivNonNegative(p, d);
      DivNonNegative(p * mixture, d);
    }
    SharesAddUp(p, mixture);
    TruncatedSum(FuelPart(propellant, mixture), OxidizerPart(propellant, mixture), propellant);
  }

  lemma {:induction false} DivNonNegative(x: real, d: real)
    requires x >= 0.0 && d > 0.0
    ensures x / d >= 0.0
  {
  }

  /** The two exact parts add up to the whole. */
  lemma {:induction false} SharesAddUp(p: real, mixture: real)
    requires mixture + 1.0 != 0.0
    ensures p / (mixture + 1.0) + p * mixture / (mixture + 1.0) == p
  {
    var d := mixture + 1.0;
    var f, o := p / d, p * mixture / d;
    assert f * d == p;
    assert o * d == p * mixture;
    assert (f + o) * d == p * d;
  }

  /** Truncating two non-negative parts of a whole number loses less than 2. */
  lemma {:induction false} TruncatedSum(f: real, o: real, whole: int)
    requires f >= 0.0 && o >= 0.0 && f + o == whole as real
    ensures 0 <= Trunc(f) && 0 <= Trunc(o)
    ensures whole - 1 <= Trunc(f) + Trunc(o) <= whole
  {
  }

  /** Total mass is dead mass plus propellant plus payload. */
  predicate MassBalanced(s: Stage) {
    s.totalMass == s.deadMass + s.propellantMass + s.payloadMass
  }

  /** A liquid tank as built for an upper stage: full, at mid-range pressure. */
  predicate FullAtMidPressure(t: Propellant) {
    t.mass == t.massMax && t.pressure == Mean(t.pressureRange)
  }

  /** Orion capsule and service module with one AJ10 engine. */
  function BuildStage4(): Stage {
    var s := NewStage.(thrustVac := 25700.0, ispVac := 319.0, mixture := 1.9,
                       propellantMass := 9276, deadMass := 6185, payloadMass := 10387,
                       diameter := 5.03);
    var s := s.(area := 3.14 * s.diameter * s.diameter, dragCoefficient := 0.5);
    var fuel := NewPropellant.(name := "MMH",
                               massMax := FuelShare(s.propellantMass, s.mixture),
                               pressureRange := (1613000.0, 1958000.0),
                               flowRateMax := s.thrustVac / s.ispVac / (s.mixture + 1.0));
    var fuel := fuel.(mass := fuel.massMax, pressure := Mean(fuel.pressureRange));
    var ox := NewPropellant.(name := "MON",
                             massMax := OxidizerShare(s.propellantMass, s.mixture),
                             pressureRange := (1613000.0, 1958000.0),
                             flowRateMax := Trunc(s.thrustVac / s.ispVac * s.mixture / (s.mixture + 1.0)) as real);
    var ox := ox.(mass := ox.massMax, pressure := Mean(ox.pressureRange));
    s.(fuel := fuel, oxidizer := ox, totalMass := s.deadMass + s.propellantMass + s.payloadMass)
  }

  /**
   * Exploration upper stage with four RL10 engines. The fuel limit is
   * assigned to a misspelled attribute, so the fuel tank keeps the default
   * limit 0 and starts with mass 0.
   */
  function BuildStage3(stage4: Stage): Stage {
    var s := NewStage.(thrustVac := 440000.0, ispVac := 450.0, mixture := 5.5,
                       propellantMass := 129000);
    var s := s.(deadMass := Trunc((s.propellantMass + 4 * 277) as real * 1.1),
                payloadMass := stage4.deadMass + stage4.payloadMass + stage4.propellantMass,
                diameter := 8.4);
    var s := s.(area := 3.14 * s.diameter * s.diameter, dragCoefficient := 0.5);
    var fuel := NewPropellant.(name := "LH2",
                               pressureRange := (220000.0, 230000.0),
                               flowRateMax := Trunc(s.thrustVac / s.ispVac / (s.mixture + 1.0)) as real);
    var fuel := fuel.(mass := fuel.massMax, pressure := Mean(fuel.pressureRange));
    var ox := NewPropellant.(name := "LOX",
                             massMax := OxidizerShare(s.propellantMass, s.mixture),
                             pressureRange := (140000.0, 150000.0),
                             flowRateMax := Trunc(s.thrustVac / s.ispVac * s.mixture / (s.mixture + 1.0)) as real);
    var ox := ox.(mass := ox.massMax, pressure := Mean(ox.pressureRange));
    s.(fuel := fuel, oxidizer := ox, totalMass := s.deadMass + s.propellantMass + s.payloadMass)
  }

  /** Core stage with four RS-25 engines; flow limits use the sea-level values. */
  function BuildStage2(stage3: Stage): Stage {
    var s := NewStage.(thrustSea := 4.0 * 1860000.0, thrustVac := 4.0 * 2279000.0,
                       ispSea := 366.0, ispVac := 452.3, mixture := 6.0,
                       propellantMass := 894182, deadMass := 85270,
                       payloadMass := stage3.deadMass + stage3.payloadMass + stage3.propellantMass,
                       diameter := 8.4);
    var s := s.(area := 3.14 * s.diameter * s.diameter, dragCoefficient := 0.5);
    var fuel := NewPropellant.(name := "LH2",
                               massMax := FuelShare(s.propellantMass, s.mixture),
                               pressureRange := (220000.0, 230000.0),
                               flowRateMax := Trunc(s.thrustSea / s.ispSea / (s.mixture + 1.0)) as real);
    var fuel := fuel.(mass := fuel.massMax, pressure := Mean(fuel.pressureRange));
    var ox := NewPropellant.(name := "LOX",
                             massMax := OxidizerShare(s.propellantMass, s.mixture),
                             pressureRange := (140000.0, 150000.0),
                             flowRateMax := Trunc(s.thrustSea / s.ispSea * s.mixture / (s.mixture + 1.0)) as real);
    var ox := ox.(mass := ox.massMax, pressure := Mean(ox.pressureRange));
    s.(fuel := fuel, oxidizer := ox, totalMass := s.deadMass + s.propellantMass + s.payloadMass)
  }

  /**
   * Core stage with two five-segment solid boosters. Its liquid tanks copy
   * the second stage's limits but start empty and unpressurised; the
   * boosters start full. Its payload is the third stage's total mass.
   */
  function BuildStage1(stage2: Stage, stage3: Stage): Stage {
    var s := NewStage.(thrustSea := 32000000.0 + stage2.thrustSea, thrustVac := stage2.thrustVac,
                       ispSea := 269.0, ispVac := stage2.ispVac, mixture := 6.0,
                       propellantMass := 894182, deadMass := 227500,
                       payloadMass := stage3.totalMass, diameter := 9.9);
    var s := s.(area := 3.14 * s.diameter * s.diameter, dragCoefficient := 0.5);
    var fuel := NewPropellant.(name := "LH2", massMax := stage2.fuel.massMax,
                               pressureRange := stage2.fuel.pressureRange,
                               flowRateMax := stage2.fuel.flowRateMax, mass := 0, pressure := 0.0);
    var ox := NewPropellant.(name := "LOX", massMax := stage2.oxidizer.massMax,
                             pressureRange := stage2.oxidizer.pressureRange,
                             flowRateMax := stage2.oxidizer.flowRateMax, mass := 0, pressure := 0.0);
    var srb := NewPropellant.(name := "srb", massMax := 1250000,
                              flowRateMax := Trunc(s.thrustSea / s.ispSea) as real);
    var srb := srb.(mass := srb.massMax);
    s.(fuel := fuel, oxidizer := ox, srb := Some(srb),
       totalMass := s.deadMass + s.payloadMass + s.propellantMass)
  }

  /** The reference vehicle on the pad, with the first stage active. */
  function LoadRocket(): (v: Vehicle)
    ensures v.altitude == 0.0 && v.velocity == 0.0 && v.flightPathAngle == 89.95
    ensures v.currentStage == Stage1 && v.stages == [Stage1, Stage2, Stage3, Stage4]
    ensures forall id :: MassBalanced(v.Get(id))
    ensures v.stage3.payloadMass == v.stage4.totalMass
    ensures v.stage2.payloadMass == v.stage3.totalMass
    ensures v.stage1.payloadMass == v.stage3.totalMass != v.stage2.totalMass
    ensures forall id :: id != Stage1 ==>
              FullAtMidPressure(v.Get(id).fuel) && FullAtMidPressure(v.Get(id).oxidizer) && v.Get(id).srb == None
    ensures v.stage1.fuel.mass == 0 && v.stage1.fuel.pressure == 0.0
    ensures v.stage1.oxidizer.mass == 0 && v.stage1.oxidizer.pressure == 0.0
    ensures v.stage1.srb.Some? && v.stage1.srb.value.mass == v.stage1.srb.value.massMax == 1250000
    ensures v.stage3.fuel.massMax == 0 && v.stage3.fuel.mass == 0
    ensures v.stage1.fuel.massMax == v.stage2.fuel.massMax == 127740
    ensures v.stage1.oxidizer.massMax == v.stage2.oxidizer.massMax == 766441
  {
    var s4 := BuildStage4();
    var s3 := BuildStage3(s4);
    var s2 := BuildStage2(s3);
    var s1 := BuildStage1(s2, s3);
    Vehicle(89.95, 0.0, 0.0, Stage1, s1, s2, s3, s4, [Stage1, Stage2, Stage3, Stage4])
  }

  /**
   * The tank limits of every stage but the third are the truncated shares
   * of its propellant mass, losing at most one kilogram; the third stage's
   * fuel limit was never set, so its limits fall far short.
   */
  lemma {:induction false} TankLimitsSplitPropellant()
    ensures forall id :: id != Stage3 ==>
              var s := LoadRocket().Get(id);
              s.fuel.massMax == FuelShare(s.propellantMass, s.mixture) &&
              s.oxidizer.massMax == OxidizerShare(s.propellantMass, s.mixture) &&
              s.propellantMass - 1 <= s.fuel.massMax + s.oxidizer.massMax <= s.propellantMass
    ensures var s := LoadRocket().stage3;
            s.fuel.massMax + s.oxidizer.massMax == OxidizerShare(s.propellantMass, s.mixture) < s.propellantMass - 1
  {
    var v := LoadRocket();
    PropellantSplit(v.stage1.propellantMass, v.stage1.mixture);
    PropellantSplit(v.stage2.propellantMass, v.stage2.mixture);
    PropellantSplit(v.stage4.propellantMass, v.stage4.mixture);
  }

  /** The stack's masses, stage by stage. */
  lemma {:induction false} ReferenceMasses()
    ensures var v := LoadRocket();
            v.stage4.totalMass == 25848 && v.stage3.totalMass == 297966 &&
            v.stage2.totalMass == 1277418 && v.stage1.totalMass == 1419648
  {
  }

  /** The bounds of randint(175, 200), the random top-up of each tank per pass. */
  const MinTopUp: int := 175
  const MaxTopUp: int := 200

  function Min(a: int, b: int): int {
    if a <= b then a else b
  }

  /** w differs from v at most in the masses of the first stage's fuel and oxidizer. */
  predicate OnlyFirstStageTanksChange(v: Vehicle, w: Vehicle) {
    w == v.(stage1 := v.stage1.(fuel := v.stage1.fuel.(mass := w.stage1.fuel.mass),
                                oxidizer := v.stage1.oxidizer.(mass := w.stage1.oxidizer.mass)))
  }

  /**
   * Fills the first stage before launch: every pass tops both tanks up by a
   * random 175 to 200 kg, clamps each at its limit and shows the oxidizer
   * mass; the passes stop once the oxidizer tank is full. `shown` is the
   * sequence of values sent to the oxidizer display.
   */
  method PreLaunch(v: Vehicle) returns (w: Vehicle, shown: seq<int>)
    ensures OnlyFirstStageTanksChange(v, w)
    ensures v.stage1.oxidizer.mass >= v.stage1.oxidizer.massMax ==> w == v && shown == []
    ensures v.stage1.oxidizer.mass < v.stage1.oxidizer.massMax ==>
              && w.stage1.oxidizer.mass == v.stage1.oxidizer.massMax
              && w.stage1.fuel.mass <= v.stage1.fuel.massMax
              && |shown| >= 1 && shown[|shown| - 1] == v.stage1.oxidizer.massMax
    ensures forall i :: 0 <= i < |shown| ==> v.stage1.oxidizer.mass < shown[i] <= v.stage1.oxidizer.massMax
    ensures forall i, j :: 0 <= i < j < |shown| ==> shown[i] < shown[j]
    ensures v.stage1.oxidizer.mass < v.stage1.oxidizer.massMax &&
            MinTopUp * (v.stage1.oxidizer.massMax - v.stage1.oxidizer.mass) >=
              MaxTopUp * (v.stage1.fuel.massMax - v.stage1.fuel.mass)
            ==> w.stage1.fuel.mass == v.stage1.fuel.massMax
  {
    var ox0, oxMax := v.stage1.oxidizer.mass, v.stage1.oxidizer.massMax;
    var fuel0, fuelMax := v.stage1.fuel.mass, v.stage1.fuel.massMax;
    var ox, fuel := ox0, fuel0;
    shown := [];
    ghost var passes := 0;
    while ox < oxMax
      invariant passes == |shown|
      invariant passes == 0 ==> ox == ox0 && fuel == fuel0
      invariant passes > 0 ==> ox0 < ox <= oxMax && fuel <= fuelMax && shown[|shown| - 1] == ox
      invariant ox <= ox0 + MaxTopUp * passes
      invariant fuel >= Min(fuel0 + MinTopUp * passes, fuelMax)
      invariant forall i :: 0 <= i < |shown| ==> ox0 < shown[i] <= ox
      invariant forall i, j :: 0 <= i < j < |shown| ==> shown[i] < shown[j]
      decreases oxMax - ox
    {
      var oxTopUp :| MinTopUp <= oxTopUp <= MaxTopUp;
      var fuelTopUp :| MinTopUp <= fuelTopUp <= MaxTopUp;
      ox := ox + oxTopUp;
      fuel := fuel + fuelTopUp;
      if ox > oxMax {
        ox := oxMax;
      }
      if fuel > fuelMax {
        fuel := fuelMax;
      }
      shown := shown + [ox];
      passes := passes + 1;
    }
    w := v.(stage1 := v.stage1.(fuel := v.stage1.fuel.(mass := fuel),
                                oxidizer := v.stage1.oxidizer.(mass := ox)));
  }

  /**
   * On the reference vehicle the oxidizer tank is the one still to fill and
   * is large enough that the fuel tank fills too: by the last postcondition
   * of PreLaunch both first-stage tanks end exactly full.
   */
  lemma {:induction false} ReferenceVehicleFillsBothTanks()
    ensures var s := LoadRocket().stage1;
            s.oxidizer.mass < s.oxidizer.massMax &&
            MinTopUp * (s.oxidizer.massMax - s.oxidizer.mass) >= MaxTopUp * (s.fuel.massMax - s.fuel.mass)
  {
  }

  /** The touch potentiometer's reading range (TouchPot.MIN_VALUE, MAX_VALUE). */
  const ThrottleMin: int := 0
  const ThrottleMax: int := 127

  /** Above this altitude the vacuum thrust limit applies. */
  const VacuumAltitude: real := 25000.0

  /** Maps `value` linearly from `range1` onto `range2`. */
  function Translate(value: real, range1: (real, real), range2: (real, real)): (r: real)
    requires range1.1 != range1.0
    ensures value == range1.0 ==> r == range2.0
    ensures value == range1.1 ==> r == range2.1
  {
    var span1 := range1.1 - range1.0;
    var span2 := range2.1 - range2.0;
    var normalized := (value - range1.0) / span1;
    range2.0 + normalized * span2
  }

  /** Differences are scaled by the ratio of the spans: the map is affine. */
  lemma {:induction false} TranslateAffine(a: real, b: real, range1: (real, real), range2: (real, real))
    requires range1.1 != range1.0
    ensures Translate(a, range1, range2) - Translate(b, range1, range2) ==
            (a - b) * (range2.1 - range2.0) / (range1.1 - range1.0)
  {
    var span1, span2 := range1.1 - range1.0, range2.1 - range2.0;
    var x, y := (a - range1.0) / span1, (b - range1.0) / span1;
    assert x - y == (a - b) / span1 by {
      assert x * span1 == a - range1.0 && y * span1 == b - range1.0;
      assert (x - y) * span1 == a - b;
    }
    assert x * span2 - y * span2 == (x - y) * span2;
    assert (a - b) / span1 * span2 == (a - b) * span2 / span1;
  }

  /** Mapping back from `range2` onto `range1` recovers the value. */
  lemma {:induction false} TranslateRoundTrip(value: real, range1: (real, real), range2: (real, real))
    requires range1.1 != range1.0 && range2.1 != range2.0
    ensures Translate(Translate(value, range1, range2), range2, range1) == value
  {
    var span1, span2 := range1.1 - range1.0, range2.1 - range2.0;
    var n := (value - range1.0) / span1;
    assert n * span1 == value - range1.0;
    var t := range2.0 + n * span2;
    assert (t - range2.0) / span2 == n;
  }

  /** The thrust limit of the active stage: vacuum above 25 km, sea level otherwise. */
  function MaxThrust(v: Vehicle): real {
    var s := v.Get(v.currentStage);
    if v.altitude > VacuumAltitude then s.thrustVac else s.thrustSea
  }

  /**
   * The commanded thrust for a throttle reading: the reading's place in
   * the throttle range, scaled to the active stage's current limit.
   */
  function Thrust(v: Vehicle, reading: int): (r: real)
    ensures reading == ThrottleMin ==> r == 0.0
    ensures reading == ThrottleMax ==> r == MaxThrust(v)
    ensures ThrottleMin <= reading <= ThrottleMax && MaxThrust(v) >= 0.0 ==> 0.0 <= r <= MaxThrust(v)
  {
    var m := MaxThrust(v);
    var r := Translate(reading as real, (ThrottleMin as real, ThrottleMax as real), (0.0, m));
    assert r == reading as real / 127.0 * m by {
      TranslateFromZero(reading as real, 127.0, m);
    }
    assert ThrottleMin <= reading <= ThrottleMax && m >= 0.0 ==> 0.0 <= r <= m by {
      if ThrottleMin <= reading <= ThrottleMax && m >= 0.0 {
        FractionBound(reading as real / 127.0, m);
      }
    }
    r
  }

  /** From a range starting at zero onto another, translating is scaling by the ratio of the ends. */
  lemma {:induction false} TranslateFromZero(value: real, hi: real, m: real)
    requires hi != 0.0
    ensures Translate(value, (0.0, hi), (0.0, m)) == value / hi * m
  {
    var n := (value - 0.0) / (hi - 0.0);
    assert n == value / hi;
    assert Translate(value, (0.0, hi), (0.0, m)) == 0.0 + n * (m - 0.0);
  }

  /** A fraction between zero and one of a non-negative amount lies between zero and that amount. */
  lemma {:induction false} FractionBound(t: real, m: real)
    requires 0.0 <= t * 127.0 <= 127.0 && m >= 0.0
    ensures 0.0 <= t * m <= m
  {
    assert 0.0 <= t <= 1.0;
    assert m - t * m == (1.0 - t) * m;
  }

  /** More throttle never gives less thrust. */
  lemma {:induction false} ThrustMonotone(v: Vehicle, a: int, b: int)
    requires a <= b && MaxThrust(v) >= 0.0
    ensures Thrust(v, a) <= Thrust(v, b)
  {
    var range1, range2 := (ThrottleMin as real, ThrottleMax as real), (0.0, MaxThrust(v));
    TranslateAffine(b as real, a as real, range1, range2);
    assert (b - a) as real * MaxThrust(v) >= 0.0;
  }

  /**
   * The upper stages have no sea-level thrust, so while they are active at
   * or below 25 km every throttle reading commands zero thrust; above 25 km
   * full throttle gives their vacuum thrust.
   */
  lemma {:induction false} UpperStagesInAtmosphere(v: Vehicle, reading: int)
    requires v.stage3 == LoadRocket().stage3 && v.stage4 == LoadRocket().stage4
    requires v.currentStage in {Stage3, Stage4}
    ensures v.altitude <= VacuumAltitude ==> Thrust(v, reading) == 0.0
    ensures v.altitude > VacuumAltitude && reading == ThrottleMax ==>
              Thrust(v, reading) == v.Get(v.currentStage).thrustVac > 0.0
  {
    assert v.altitude <= VacuumAltitude ==> MaxThrust(v) == 0.0;
  }
}
