/** The SI catalog: the system "SI" of the "BIPM", its base units and the derived units
    the package predefines, each registered in the system as it is constructed. */
module SIUnits {
  import opened Metrics
  import opened DerivedUnits

  /** newSIBaseUnit: a fresh base unit holding the given texts, appended to the system. */
  method NewSIBaseUnit(name: string, definition: string, symbol: string, system: SystemOfUnits)
    returns (unit: Metric)
    requires system.Valid()
    modifies system
    ensures fresh(unit)
    ensures unit.Name() == name && unit.Definition() == definition && unit.Symbol() == symbol
    ensures unit.kind == SIBase(system) && unit.IsUnit() && unit.SystemOfUnits() == system
    ensures unit.String() == symbol
    ensures system.units == old(system.units) + [unit] && system.Valid()
  {
    unit := new Metric(name, definition, symbol, SIBase(system));
    system.AppendUnit(unit);
  }

  // The definitions the catalog gives its units.
  const MeterDefinition := "The meter is the length of the path travelled by light in vacuum during a time interval of 1/299792458 of a second"
  const RadianDefinition := "The radian is the SI unit for measuring angles, and is the standard unit of angular measure used in many areas of mathematics"
  const SteradianDefinition := "The steradian is the SI unit of solid angle. It is used to describe two-dimensional angles, analogous to the way in which the radian describes angles in three dimensions"
  const AreaDefinition := "The area is the quantity that expresses the extent of a two-dimensional figure or shape, or planar lamina, in the plane"
  const VolumeDefinition := "The volume is the quantity of three-dimensional space enclosed by a closed surface, for example, the space that a substance (solid, liquid, gas, or plasma) or shape occupies or contains"
  const KilogramDefinition := "The kilogram is the unit of mass; it is equal to the mass of the international prototype of the kilogram"
  const SecondDefinition := "The second is the duration of 9192631770 periods of the radiation corresponding to the transition between the two hyperfine levels of the ground state of the caesium 133 atom"
  const SpeedDefinition := "The speed is the rate of change of distance with time"
  const AmpereDefinition := "The ampere is that constant current which, if maintained in two straight parallel conductors of infinite length, of negligible circular cross-section, and placed 1 meter apart in vacuum, would produce between these conductors a force equal to 2 x 10-7 newton per meter of length"
  const WattDefinition := "The watt is the SI derived unit for power in the International System of Units (SI); it is defined as 1 joule per second and is used to quantify the rate of energy transfer"
  const KelvinDefinition := "The kelvin, unit of thermodynamic temperature, is the fraction 1/273.16 of the thermodynamic temperature of the triple point of water"
  const CelsiusDefinition := "The degree Celsius is the unit of temperature defined by the equation T(°C) = T(K) - 273.15"
  const MoleDefinition := "The mole is the amount of substance of a system which contains as many elementary entities as there are atoms in 0.012 kilogram of carbon 12"
  const CandelaDefinition := "The candela is the luminous intensity, in a given direction, of a source that emits monochromatic radiation of frequency 540 x 1012 hertz and that has a radiant intensity in that direction of 1/683 watt per steradian"
  const LumenDefinition := "The lumen is the SI derived unit of luminous flux, a measure of the total quantity of visible light emitted by a source per unit of time"
  const LuxDefinition := "The lux is the SI unit of illuminance and luminous emittance, measuring luminous flux per unit area"

  /** The package-level SI values. */
  datatype Catalog = Catalog(
    system: SystemOfUnits,
    meter: Metric, radian: Metric, steradian: Metric, area: Metric, volume: Metric,
    kilogram: Metric, second: Metric, speed: Metric, ampere: Metric, watt: Metric,
    kelvin: Metric, celsius: Metric, mole: Metric, candela: Metric, lumen: Metric, lux: Metric)
  {
    /** The catalog's units in the order they are constructed. */
    function Units(): seq<Metric> {
      [meter, radian, steradian, area] + [volume, kilogram, second, speed]
      + [ampere, watt, kelvin, celsius] + [mole, candela, lumen, lux]
    }
  }

  predicate Distinct(s: seq<Metric>) {
    forall i, j :: 0 <= i < j < |s| ==> s[i] != s[j]
  }

  /** A unit with the texts and the kind the catalog gives it. */
  predicate Declared(u: Metric, name: string, definition: string, symbol: string, kind: Kind) {
    u.Name() == name && u.Definition() == definition && u.Symbol() == symbol && u.kind == kind
  }

  /** Units 1 to 4 as metric_si.go declares them. */
  predicate Part1Declared(system: SystemOfUnits, meter: Metric, radian: Metric, steradian: Metric, area: Metric) {
    && Declared(meter, "meter", MeterDefinition, "m", SIBase(system))
    && Declared(radian, "radian", RadianDefinition, "rad", Derived(system, []))
    && Declared(steradian, "steradian", SteradianDefinition, "sr", Derived(system, []))
    && Declared(area, "area", AreaDefinition, "m²", Derived(system, [Term(meter, 2)]))
  }

  /** Units 5 to 8 as metric_si.go declares them. */
  predicate Part2Declared(system: SystemOfUnits, meter: Metric,
                          volume: Metric, kilogram: Metric, second: Metric, speed: Metric) {
    && Declared(volume, "volume", VolumeDefinition, "m³", Derived(system, [Term(meter, 3)]))
    && Declared(kilogram, "kilogram", KilogramDefinition, "kg", SIBase(system))
    && Declared(second, "second", SecondDefinition, "s", SIBase(system))
    && Declared(speed, "speed", SpeedDefinition, "m/s", Derived(system, [Term(meter, 1), Term(second, -1)]))
  }

  /** Units 9 to 12 as metric_si.go declares them. */
  predicate Part3Declared(system: SystemOfUnits, meter: Metric, kilogram: Metric, second: Metric,
                          ampere: Metric, watt: Metric, kelvin: Metric, celsius: Metric) {
    && Declared(ampere, "ampere", AmpereDefinition, "A", SIBase(system))
    && Declared(watt, "watt", WattDefinition, "W",
         Derived(system, [Term(meter, 2), Term(kilogram, 1), Term(second, -3)]))
    && Declared(kelvin, "kelvin", KelvinDefinition, "K", SIBase(system))
    && Declared(celsius, "celsius", CelsiusDefinition, "°C", Derived(system, [Term(kelvin, 1)]))
  }

  /** Units 13 to 16 as metric_si.go declares them. */
  predicate Part4Declared(system: SystemOfUnits, meter: Metric, steradian: Metric,
                          mole: Metric, candela: Metric, lumen: Metric, lux: Metric) {
    && Declared(mole, "mole", MoleDefinition, "mol", SIBase(system))
    && Declared(candela, "candela", CandelaDefinition, "cd", SIBase(system))
    && Declared(lumen, "lumen", LumenDefinition, "lm", Derived(system, [Term(candela, 1), Term(steradian, 1)]))
    && Declared(lux, "lux", LuxDefinition, "lx", Derived(system, [Term(candela, 1), Term(meter, -2)]))
  }

  /** Every catalog unit with the texts, kind and terms metric_si.go gives it. */
  predicate AsDeclared(si: Catalog) {
    && Part1Declared(si.system, si.meter, si.radian, si.steradian, si.area)
    && Part2Declared(si.system, si.meter, si.volume, si.kilogram, si.second, si.speed)
    && Part3Declared(si.system, si.meter, si.kilogram, si.second, si.ampere, si.watt, si.kelvin, si.celsius)
    && Part4Declared(si.system, si.meter, si.steradian, si.mole, si.candela, si.lumen, si.lux)
  }

  /** Units 1 to 4 of the catalog, in declaration order. */
  method NewCatalogPart1(system: SystemOfUnits)
    returns (meter: Metric, radian: Metric, steradian: Metric, area: Metric)
    requires system.Valid()
    modifies system
    ensures system.units == old(system.units) + [meter, radian, steradian, area] && system.Valid()
    ensures fresh(meter) && fresh(radian) && fresh(steradian) && fresh(area)
    ensures Distinct(old(system.units)) ==> Distinct(system.units)
    ensures Part1Declared(system, meter, radian, steradian, area)
  {
    meter := NewSIBaseUnit("meter", MeterDefinition, "m", system);
    radian := NewDerivedUnit("radian", RadianDefinition, "rad", system, []);
    steradian := NewDerivedUnit("steradian", SteradianDefinition, "sr", system, []);
    area := NewDerivedUnit("area", AreaDefinition, "m²", system, [NewDerivedUnitTerm(meter, 2)]);
  }

  /** Units 5 to 8 of the catalog, in declaration order. */
  method NewCatalogPart2(system: SystemOfUnits, meter: Metric)
    returns (volume: Metric, kilogram: Metric, second: Metric, speed: Metric)
    requires system.Valid()
    modifies system
    ensures system.units == old(system.units) + [volume, kilogram, second, speed] && system.Valid()
    ensures fresh(volume) && fresh(kilogram) && fresh(second) && fresh(speed)
    ensures Distinct(old(system.units)) ==> Distinct(system.units)
    ensures Part2Declared(system, meter, volume, kilogram, second, speed)
  {
    volume := NewDerivedUnit("volume", VolumeDefinition, "m³", system, [NewDerivedUnitTerm(meter, 3)]);
    kilogram := NewSIBaseUnit("kilogram", KilogramDefinition, "kg", system);
    second := NewSIBaseUnit("second", SecondDefinition, "s", system);
    speed := NewDerivedUnit("speed", SpeedDefinition, "m/s", system, [NewDerivedUnitTerm(meter, 1), NewDerivedUnitTerm(second, -1)]);
  }

  /** Units 9 to 12 of the catalog, in declaration order. */
  method NewCatalogPart3(system: SystemOfUnits, meter: Metric, kilogram: Metric, second: Metric)
    returns (ampere: Metric, watt: Metric, kelvin: Metric, celsius: Metric)
    requires system.Valid()
    modifies system
    ensures system.units == old(system.units) + [ampere, watt, kelvin, celsius] && system.Valid()
    ensures fresh(ampere) && fresh(watt) && fresh(kelvin) && fresh(celsius)
    ensures Distinct(old(system.units)) ==> Distinct(system.units)
    ensures Part3Declared(system, meter, kilogram, second, ampere, watt, kelvin, celsius)
  {
    ampere := NewSIBaseUnit("ampere", AmpereDefinition, "A", system);
    watt := NewDerivedUnit("watt", WattDefinition, "W", system,
      [NewDerivedUnitTerm(meter, 2), NewDerivedUnitTerm(kilogram, 1), NewDerivedUnitTerm(second, -3)]);
    kelvin := NewSIBaseUnit("kelvin", KelvinDefinition, "K", system);
    celsius := NewDerivedUnit("celsius", CelsiusDefinition, "°C", system, [NewDerivedUnitTerm(kelvin, 1)]);
  }

  /** Units 13 to 16 of the catalog, in declaration order. */
  method NewCatalogPart4(system: SystemOfUnits, meter: Metric, steradian: Metric)
    returns (mole: Metric, candela: Metric, lumen: Metric, lux: Metric)
    requires system.Valid()
    modifies system
    ensures system.units == old(system.units) + [mole, candela, lumen, lux] && system.Valid()
    ensures fresh(mole) && fresh(candela) && fresh(lumen) && fresh(lux)
    ensures Distinct(old(system.units)) ==> Distinct(system.units)
    ensures Part4Declared(system, meter, steradian, mole, candela, lumen, lux)
  {
    mole := NewSIBaseUnit("mole", MoleDefinition, "mol", system);
    candela := NewSIBaseUnit("candela", CandelaDefinition, "cd", system);
    lumen := NewDerivedUnit("lumen", LumenDefinition, "lm", system, [NewDerivedUnitTerm(candela, 1), NewDerivedUnitTerm(steradian, 1)]);
    lux := NewDerivedUnit("lux", LuxDefinition, "lx", system, [NewDerivedUnitTerm(candela, 1), NewDerivedUnitTerm(meter, -2)]);
  }

  /** The initialisation of the SI variables, in declaration order: 16 units, each
      registered once in the system "SI" of the "BIPM". */
  method NewSICatalog() returns (si: Catalog)
    ensures fresh(si.system) && si.system.Valid()
    ensures si.system.Name() == "SI" && si.system.StandardizationBody() == "BIPM"
    ensures si.system.Units() == si.Units()
    ensures |si.system.Units()| == 16 && Distinct(si.system.Units())
    ensures forall u :: u in si.Units() ==> fresh(u) && u.IsUnit() && u.SystemOfUnits() == si.system
    ensures AsDeclared(si)
  {
    var system := NewSystemOfUnits("SI", "BIPM");
    var meter, radian, steradian, area := NewCatalogPart1(system);
    var volume, kilogram, second, speed := NewCatalogPart2(system, meter);
    var ampere, watt, kelvin, celsius := NewCatalogPart3(system, meter, kilogram, second);
    var mole, candela, lumen, lux := NewCatalogPart4(system, meter, steradian);
    si := Catalog(system, meter, radian, steradian, area, volume, kilogram, second, speed,
                  ampere, watt, kelvin, celsius, mole, candela, lumen, lux);
    assert system.units == si.Units();
  }
}
