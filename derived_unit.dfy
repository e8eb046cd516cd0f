/** Derived units: units defined by an ordered list of terms, registered in a
    system of units when one is given. */
module DerivedUnits {
  import opened Metrics

  /** The objects NewDerivedUnit may change: the given system, if any. */
  function Registry(system: SystemOfUnits?): set<object> {
    if system == null then {} else {system}
  }

  /** NewDerivedUnit: a fresh derived unit holding the given texts and terms verbatim
      (its symbol is the given one, not one built from the terms); with a system it is
      appended once at the end of that system's units, without one nothing changes. */
  method NewDerivedUnit(name: string, definition: string, symbol: string,
                        system: SystemOfUnits?, terms: seq<Term>)
    returns (du: Metric)
    requires system != null ==> system.Valid()
    modifies Registry(system)
    ensures fresh(du)
    ensures du.Name() == name && du.Definition() == definition && du.Symbol() == symbol
    ensures du.kind == Derived(system, terms) && du.IsUnit()
    ensures du.SystemOfUnits() == system && du.Terms() == terms
    ensures system != null ==> system.units == old(system.units) + [du] && system.Valid()
  {
    du := new Metric(name, definition, symbol, Derived(system, terms));
    if system != null {
      system.AppendUnit(du);
    }
  }

  /** NewDerivedUnitTerm: the pair of a metric and its exponent. */
  function NewDerivedUnitTerm(metric: Metric, exponent: int): (t: Term)
    ensures t.metric == metric && t.Exponent() == exponent
    ensures t.Name() == metric.Name() && t.Definition() == metric.Definition()
  {
    Term(metric, exponent)
  }

  /** The symbol of `m^2` for a metric with symbol "m" is "m^2"; of a negative power, "s^-1". */
  lemma TermSymbolExamples(m: Metric, s: Metric)
    requires m.symbol == "m" && s.symbol == "s"
    ensures NewDerivedUnitTerm(m, 2).Symbol() == "m^2"
    ensures NewDerivedUnitTerm(s, -1).Symbol() == "s^-1"
  {
  }
}
