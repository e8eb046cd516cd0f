/** Currencies: metrics with an alphabetic code and a number of decimal places, and the
    registry of ISO 4217 currencies that NewISOCurrency fills. */
module Currencies {
  import opened Wrappers
  import opened Metrics

  /** NewCurrency: a fresh currency holding exactly the given fields. It is a metric,
      but not a unit. */
  method NewCurrency(name: string, definition: string, symbol: string, code: string, decimal: int)
    returns (c: Metric)
    ensures fresh(c)
    ensures c.Name() == name && c.Definition() == definition && c.Symbol() == symbol
    ensures c.kind == Currency(code, decimal) && c.Code() == code && c.Decimal() == decimal
    ensures c.String() == symbol && !c.IsUnit()
  {
    c := new Metric(name, definition, symbol, Currency(code, decimal));
  }

  /** NewNonISOCurrency: the same fresh currency, registered nowhere. */
  method NewNonISOCurrency(name: string, definition: string, symbol: string, code: string, decimal: int)
    returns (c: Metric)
    ensures fresh(c)
    ensures c.Name() == name && c.Definition() == definition && c.Symbol() == symbol
    ensures c.kind == Currency(code, decimal)
  {
    c := NewCurrency(name, definition, symbol, code, decimal);
  }

  /** The ISO currencies, by code. */
  class ISOCurrencies {
    var m: map<string, Metric>

    constructor ()
      ensures m == map[]
    {
      m := map[];
    }

    /** `(currency, true)` for a registered code, `(nil, false)` otherwise. */
    function Get(code: string): (r: Option<Metric>)
      reads this
      ensures r.Some? <==> code in m
      ensures r.Some? ==> r.value == m[code]
    {
      if code in m then Some(m[code]) else None
    }
  }

  /** NewISOCurrency: a fresh currency, filed under its code; a code registered before
      now gives the new currency. */
  method NewISOCurrency(registry: ISOCurrencies, name: string, definition: string, symbol: string,
                        code: string, decimal: int)
    returns (c: Metric)
    modifies registry
    ensures fresh(c)
    ensures c.Name() == name && c.Definition() == definition && c.Symbol() == symbol
    ensures c.kind == Currency(code, decimal)
    ensures registry.m == old(registry.m)[code := c]
    ensures registry.Get(code) == Some(c)
    ensures forall other :: other != code ==> registry.Get(other) == old(registry.Get(other))
  {
    c := NewCurrency(name, definition, symbol, code, decimal);
    registry.m := registry.m[code := c];
  }

  /** The package-level ISO currencies. */
  datatype IsoCatalog = IsoCatalog(registry: ISOCurrencies, usd: Metric, eur: Metric, pln: Metric, gbp: Metric)

  const UsdDefinition := "The US Dollar is the official currency of the United States and its territories per the Coinage Act of 1792. One dollar is divided into 100 cents (Symbol: ¢)."
  const EurDefinition := "The Euro is the official currency of the European Union. One euro is divided into 100 cents (Symbol: ¢)."
  const PlnDefinition := "The Polish Zloty is the official currency of Poland. One zloty is divided into 100 groszy (Symbol: gr)."
  const GbpDefinition := "The Pound Sterling is the official currency of the United Kingdom and its territories. One pound sterling is divided into 100 pence (Symbol: p)."

  /** The initialisation of the currency variables: four currencies with two decimal
      places, each under its code; codes never registered are absent. */
  method NewIsoCatalog() returns (iso: IsoCatalog)
    ensures fresh(iso.registry)
    ensures iso.registry.m == map["USD" := iso.usd, "EUR" := iso.eur, "PLN" := iso.pln, "GBP" := iso.gbp]
    ensures iso.usd.Name() == "US Dollar" && iso.usd.Symbol() == "$" && iso.usd.kind == Currency("USD", 2)
    ensures iso.usd.Definition() == UsdDefinition && iso.eur.Definition() == EurDefinition
    ensures iso.pln.Definition() == PlnDefinition && iso.gbp.Definition() == GbpDefinition
    ensures iso.eur.Name() == "Euro" && iso.eur.Symbol() == "€" && iso.eur.kind == Currency("EUR", 2)
    ensures iso.pln.Name() == "Polish Zloty" && iso.pln.Symbol() == "zł" && iso.pln.kind == Currency("PLN", 2)
    ensures iso.gbp.Name() == "Pound Sterling" && iso.gbp.Symbol() == "£" && iso.gbp.kind == Currency("GBP", 2)
    ensures iso.usd != iso.eur && iso.usd != iso.pln && iso.usd != iso.gbp
    ensures iso.eur != iso.pln && iso.eur != iso.gbp && iso.pln != iso.gbp
    ensures iso.registry.Get("USD") == Some(iso.usd) && iso.registry.Get("XYZ") == None
  {
    var registry := new ISOCurrencies();
    var usd := NewISOCurrency(registry, "US Dollar", UsdDefinition, "$", "USD", 2);
    var eur := NewISOCurrency(registry, "Euro", EurDefinition, "€", "EUR", 2);
    var pln := NewISOCurrency(registry, "Polish Zloty", PlnDefinition, "zł", "PLN", 2);
    var gbp := NewISOCurrency(registry, "Pound Sterling", GbpDefinition, "£", "GBP", 2);
    iso := IsoCatalog(registry, usd, eur, pln, gbp);
  }
}
