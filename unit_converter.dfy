/** The conversion registry: conversions keyed by target unit, then by source unit.
    Constructing a standard conversion registers it; Convert looks it up and runs it. */
module UnitConversion {
  import opened Wrappers
  import opened Metrics
  import opened Errors
  import opened Quantities

  type ConversionFn = Quantity -> Result<Quantity, Error>

  type Conversions = map<Metric, map<Metric, StandardConversion>>

  /** One registered transform from a source unit to a target unit. */
  datatype StandardConversion = StandardConversion(conversionFn: ConversionFn, sourceUnit: Metric, targetUnit: Metric) {

    /** Fails unless the quantity is on the captured source unit (by identity); passes on
        the function's error unchanged; otherwise the function's amount on the captured
        target unit, whatever metric the function put on its result. */
    function Convert(source: Quantity): (r: Result<Quantity, Error>)
      ensures source.metric != sourceUnit ==> r == Failure(MetricIsNotUnit(None))
      ensures source.metric == sourceUnit && conversionFn(source).Failure? ==>
        r == Failure(conversionFn(source).error)
      ensures source.metric == sourceUnit && conversionFn(source).Success? ==>
        r == Success(Quantity(conversionFn(source).value.amount, targetUnit))
      ensures r.Success? ==> r.value.metric == targetUnit
    {
      if source.Metric() != sourceUnit then Failure(MetricIsNotUnit(None))
      else match conversionFn(source)
        case Failure(e) => Failure(e)
        case Success(converted) => Success(NewQuantity(converted.Amount(), targetUnit))
    }
  }

  /** The table after `conversions[target][source] = sc`, creating the inner map if needed. */
  function Register(c: Conversions, sc: StandardConversion): (c': Conversions)
    ensures sc.targetUnit in c' && sc.sourceUnit in c'[sc.targetUnit]
    ensures c'[sc.targetUnit][sc.sourceUnit] == sc
    ensures c'.Keys == c.Keys + {sc.targetUnit}
    ensures forall t, s :: t in c' && s in c'[t] && (t, s) != (sc.targetUnit, sc.sourceUnit) ==>
      t in c && s in c[t] && c'[t][s] == c[t][s]
    ensures forall t, s :: t in c && s in c[t] ==> t in c' && s in c'[t]
  {
    var inner: map<Metric, StandardConversion> := if sc.targetUnit in c then c[sc.targetUnit] else map[];
    c[sc.targetUnit := inner[sc.sourceUnit := sc]]
  }

  /** Every entry is filed under its own target and source. */
  ghost predicate WellFiled(c: Conversions) {
    forall t, s :: t in c && s in c[t] ==> c[t][s].targetUnit == t && c[t][s].sourceUnit == s
  }

  class UnitConverter {
    var conversions: Conversions

    ghost predicate Valid()
      reads this
    {
      WellFiled(conversions)
    }

    constructor ()
      ensures conversions == map[] && Valid()
    {
      conversions := map[];
    }

    /** NoConversion exactly when nothing is filed under [target][source]. */
    function GetConversion(sourceUnit: Metric, targetUnit: Metric): (r: Result<StandardConversion, Error>)
      reads this
      ensures r.Success? <==> targetUnit in conversions && sourceUnit in conversions[targetUnit]
      ensures r.Success? ==> r.value == conversions[targetUnit][sourceUnit]
      ensures r.Failure? ==> r.error == NoConversion
    {
      if targetUnit in conversions && sourceUnit in conversions[targetUnit] then
        Success(conversions[targetUnit][sourceUnit])
      else
        Failure(NoConversion)
    }

    /** First the quantity's metric must be a unit, before any lookup; then a conversion
        must be filed under [target][source]; then that conversion decides the result. */
    function Convert(quantity: Quantity, target: Metric): (r: Result<Quantity, Error>)
      reads this
      requires target.IsUnit()
      ensures !quantity.metric.IsUnit() ==> r == Failure(MetricIsNotUnit(Some(quantity.metric.Name())))
      ensures quantity.metric.IsUnit() && !(target in conversions && quantity.metric in conversions[target]) ==>
        r == Failure(NoConversion)
      ensures quantity.metric.IsUnit() && target in conversions && quantity.metric in conversions[target] ==>
        r == conversions[target][quantity.metric].Convert(quantity)
    {
      if !quantity.Metric().IsUnit() then Failure(MetricIsNotUnit(Some(quantity.Metric().Name())))
      else match GetConversion(quantity.Metric(), target)
        case Failure(e) => Failure(e)
        case Success(conversion) => conversion.Convert(quantity)
    }

    /** NewStandardConversion: builds the conversion and files it under [target][source],
        replacing any earlier entry for that pair and no other. */
    method NewStandardConversion(sourceUnit: Metric, targetUnit: Metric, conversionFn: ConversionFn)
      returns (sc: StandardConversion)
      requires sourceUnit.IsUnit() && targetUnit.IsUnit()
      requires Valid()
      modifies this
      ensures sc == StandardConversion(conversionFn, sourceUnit, targetUnit)
      ensures conversions == Register(old(conversions), sc)
      ensures Valid()
    {
      sc := StandardConversion(conversionFn, sourceUnit, targetUnit);
      if targetUnit !in conversions {
        conversions := conversions[targetUnit := map[]];
      }
      conversions := conversions[targetUnit := conversions[targetUnit][sourceUnit := sc]];
    }
  }

  /** Registering keeps every entry filed under its own pair. */
  lemma RegisterKeepsWellFiled(c: Conversions, sc: StandardConversion)
    requires WellFiled(c)
    ensures WellFiled(Register(c, sc))
  {
  }

  /** In a well-filed registry a conversion that succeeds lands on the requested target unit,
      and it is exactly the registered function's amount. */
  lemma ConvertLandsOnTarget(conv: UnitConverter, q: Quantity, target: Metric)
    requires conv.Valid() && target.IsUnit()
    requires q.metric.IsUnit() && target in conv.conversions && q.metric in conv.conversions[target]
    ensures var fn := conv.conversions[target][q.metric].conversionFn;
      conv.Convert(q, target) ==
        match fn(q)
        case Failure(e) => Failure(e)
        case Success(v) => Success(Quantity(v.amount, target))
  {
  }

  /** The package's absolute zero in degrees Celsius. */
  const AbsoluteZero: real := -273.15

  function CelsiusToKelvinFn(kelvin: Metric): ConversionFn {
    (q: Quantity) => Success(NewQuantity(q.Amount() - AbsoluteZero, kelvin))
  }

  function KelvinToCelsiusFn(celsius: Metric): ConversionFn {
    (q: Quantity) => Success(NewQuantity(q.Amount() + AbsoluteZero, celsius))
  }

  /** Registers the two temperature conversions, Celsius to Kelvin and back. */
  method RegisterTemperatureConversions(conv: UnitConverter, celsius: Metric, kelvin: Metric)
    returns (celsiusToKelvin: StandardConversion, kelvinToCelsius: StandardConversion)
    requires celsius.IsUnit() && kelvin.IsUnit() && conv.Valid()
    modifies conv
    ensures celsiusToKelvin == StandardConversion(CelsiusToKelvinFn(kelvin), celsius, kelvin)
    ensures kelvinToCelsius == StandardConversion(KelvinToCelsiusFn(celsius), kelvin, celsius)
    ensures conv.conversions == Register(Register(old(conv.conversions), celsiusToKelvin), kelvinToCelsius)
    ensures conv.Valid()
  {
    celsiusToKelvin := conv.NewStandardConversion(celsius, kelvin, CelsiusToKelvinFn(kelvin));
    kelvinToCelsius := conv.NewStandardConversion(kelvin, celsius, KelvinToCelsiusFn(celsius));
  }

  /** Over exact reals the two temperature conversions undo each other, and both tag the
      result with their own target: 1 degree Celsius is 274.15 kelvin and back. */
  lemma TemperatureRoundTrip(celsius: Metric, kelvin: Metric, amount: real)
    ensures var c2k := StandardConversion(CelsiusToKelvinFn(kelvin), celsius, kelvin);
      var k2c := StandardConversion(KelvinToCelsiusFn(celsius), kelvin, celsius);
      c2k.Convert(Quantity(amount, celsius)) == Success(Quantity(amount + 273.15, kelvin))
      && k2c.Convert(Quantity(amount + 273.15, kelvin)) == Success(Quantity(amount, celsius))
  {
  }

  /** After the temperatures are registered, the registry converts Celsius to Kelvin. */
  lemma RegisteredTemperatureConverts(c: Conversions, celsius: Metric, kelvin: Metric, amount: real)
    requires celsius != kelvin
    ensures var c2k := StandardConversion(CelsiusToKelvinFn(kelvin), celsius, kelvin);
      var k2c := StandardConversion(KelvinToCelsiusFn(celsius), kelvin, celsius);
      var c' := Register(Register(c, c2k), k2c);
      kelvin in c' && celsius in c'[kelvin] && c'[kelvin][celsius] == c2k
      && celsius in c' && kelvin in c'[celsius] && c'[celsius][kelvin] == k2c
  {
  }
}
