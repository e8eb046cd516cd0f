/** The identity model of the `metric` package: one class for every Go type that
    implements the `Metric` interface, told apart by its `kind`. Two metrics are the
    same metric only when they are the same object. */
module Metrics {
  import DecimalText

  /** Which Go implementation of `Metric` an object is, with the fields that
      implementation adds to name, definition and symbol. */
  datatype Kind =
    | Plain                                                // metricImpl, made by NewMetric
    | SIBase(system: SystemOfUnits?)                       // siBaseUnitImpl
    | Derived(system: SystemOfUnits?, terms: seq<Term>)    // derivedUnitImpl; null: not registered
    | Currency(code: string, decimal: int)                 // money.currencyImpl

  /** One factor of a derived unit: a metric raised to an integer power. */
  datatype Term = Term(metric: Metric, exponent: int) {

    function Name(): (s: string)
      ensures s == metric.Name()
    {
      metric.name
    }

    function Definition(): (s: string)
      ensures s == metric.Definition()
    {
      metric.definition
    }

    /** `sym^exp`: the base symbol, a caret, then the exponent in decimal. */
    function Symbol(): (s: string)
      ensures var k := |metric.symbol|;
        |s| > k + 1 && s[..k] == metric.symbol && s[k] == '^'
        && DecimalText.IsIntText(s[k + 1..]) && DecimalText.IntValue(s[k + 1..]) == exponent
    {
      var s := metric.symbol + "^" + DecimalText.IntToText(exponent);
      assert s[|metric.symbol| + 1..] == DecimalText.IntToText(exponent);
      s
    }

    function String(): (s: string)
      ensures s == Symbol()
    {
      Symbol()
    }

    function Exponent(): int {
      exponent
    }
  }

  class Metric {
    const name: string
    const definition: string
    const symbol: string
    const kind: Kind

    constructor (name: string, definition: string, symbol: string, kind: Kind)
      ensures this.name == name && this.definition == definition && this.symbol == symbol
      ensures this.kind == kind
    {
      this.name := name;
      this.definition := definition;
      this.symbol := symbol;
      this.kind := kind;
    }

    function Name(): string {
      name
    }

    function Definition(): string {
      definition
    }

    function Symbol(): string {
      symbol
    }

    /** Every implementation prints as its symbol. */
    function String(): (s: string)
      ensures s == Symbol()
    {
      symbol
    }

    /** The Go type assertion `m.(Unit)`: true for SI base units and derived units,
        registered or not; false for plain metrics and currencies. */
    predicate IsUnit() {
      kind.SIBase? || kind.Derived?
    }

    /** The system a unit belongs to; null for a derived unit made without one. */
    function SystemOfUnits(): (s: SystemOfUnits?)
      requires IsUnit()
    {
      kind.system
    }

    function Terms(): seq<Term>
      requires kind.Derived?
    {
      kind.terms
    }

    function Code(): string
      requires kind.Currency?
    {
      kind.code
    }

    function Decimal(): int
      requires kind.Currency?
    {
      kind.decimal
    }
  }

  /** A named system of units defined by a standardization body; its unit list only grows. */
  class SystemOfUnits {
    const name: string
    const standardizationBody: string
    var units: seq<Metric>

    /** Every registered unit is a unit and names this system as its own. */
    ghost predicate Valid()
      reads this
    {
      forall i :: 0 <= i < |units| ==> units[i].IsUnit() && units[i].SystemOfUnits() == this
    }

    constructor (name: string, standardizationBody: string)
      ensures this.name == name && this.standardizationBody == standardizationBody
      ensures units == [] && Valid()
    {
      this.name := name;
      this.standardizationBody := standardizationBody;
      units := [];
    }

    function Name(): string {
      name
    }

    function StandardizationBody(): string {
      standardizationBody
    }

    function Units(): seq<Metric>
      reads this
    {
      units
    }

    /** Appends at the end, with no check for a unit already present. */
    method AppendUnit(unit: Metric)
      requires unit.IsUnit()
      modifies this
      ensures units == old(units) + [unit]
      ensures old(Valid()) && unit.SystemOfUnits() == this ==> Valid()
    {
      units := units + [unit];
    }
  }

  /** NewMetric: a fresh plain metric holding exactly the given texts. */
  method NewMetric(name: string, definition: string, symbol: string) returns (m: Metric)
    ensures fresh(m)
    ensures m.Name() == name && m.Definition() == definition && m.Symbol() == symbol
    ensures m.kind == Plain && !m.IsUnit()
  {
    m := new Metric(name, definition, symbol, Plain);
  }

  /** NewSystemOfUnits: a fresh system with no units yet. */
  method NewSystemOfUnits(name: string, standardizationBody: string) returns (s: SystemOfUnits)
    ensures fresh(s)
    ensures s.Name() == name && s.StandardizationBody() == standardizationBody
    ensures s.Units() == [] && s.Valid()
  {
    s := new SystemOfUnits(name, standardizationBody);
  }

  /** A unit appended twice is listed twice: the system keeps both entries. */
  method AppendUnitTwice(s: SystemOfUnits, unit: Metric)
    requires unit.IsUnit()
    modifies s
    ensures s.units == old(s.units) + [unit, unit]
    ensures |s.units| == |old(s.units)| + 2 && s.units[|s.units| - 1] == s.units[|s.units| - 2]
  {
    s.AppendUnit(unit);
    s.AppendUnit(unit);
  }

  /** Same texts, two calls: two metrics that are not the same metric. */
  method SameTextsDistinctMetrics(name: string, definition: string, symbol: string)
    returns (a: Metric, b: Metric)
    ensures a != b
    ensures a.Name() == b.Name() && a.Definition() == b.Definition() && a.Symbol() == b.Symbol()
  {
    a := NewMetric(name, definition, symbol);
    b := NewMetric(name, definition, symbol);
  }

  /** The two halves of a term's symbol are recoverable: equal symbols over the same
      base symbol mean equal exponents. */
  lemma TermSymbolDeterminesExponent(t1: Term, t2: Term)
    requires t1.metric.symbol == t2.metric.symbol
    ensures t1.Symbol() == t2.Symbol() <==> t1.exponent == t2.exponent
  {
    var k := |t1.metric.symbol|;
    if t1.Symbol() == t2.Symbol() {
      assert t1.Symbol()[k + 1..] == t2.Symbol()[k + 1..];
    }
  }
}
