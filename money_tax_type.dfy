/** Tax types: a plain metric wrapped as a tax type, and the registry NewTaxType fills. */
module TaxTypes {
  import opened Wrappers
  import opened Metrics
  import opened Errors
  import Utf8

  /** A struct holding a metric: two tax types are equal when they wrap the same metric object. */
  datatype TaxType = TaxType(metric: Metric) {

    function Name(): (s: string)
      ensures s == metric.Name()
    {
      metric.Name()
    }

    function Definition(): (s: string)
      ensures s == metric.Definition()
    {
      metric.Definition()
    }

    function Symbol(): (s: string)
      ensures s == metric.Symbol()
    {
      metric.Symbol()
    }

    /** The tax type's type is its symbol. */
    function Type(): (s: string)
      ensures s == Symbol()
    {
      Symbol()
    }

    /** The UTF-8 bytes of the symbol, and never an error: the bytes are the one byte
        string that decodes to the symbol. */
    function MarshalText(): (r: Result<seq<Utf8.byte>, Error>)
      ensures r.Success?
      ensures forall bs :: Utf8.Decode(bs) == Some(Symbol()) <==> bs == r.value
    {
      Utf8.DecodeEncode(Symbol());
      forall bs | Utf8.Decode(bs) == Some(Symbol())
        ensures bs == Utf8.Encode(Symbol())
      {
        Utf8.EncodeDecode(bs, Symbol());
      }
      Success(Utf8.Encode(Symbol()))
    }
  }

  class TaxTypeRegistry {
    var types: map<string, TaxType>

    constructor ()
      ensures types == map[]
    {
      types := map[];
    }
  }

  /** NewTaxType: wraps a fresh plain metric with the given texts and files it under its
      name, replacing any tax type filed under that name before. */
  method NewTaxType(registry: TaxTypeRegistry, name: string, definition: string, symbol: string)
    returns (tax: TaxType)
    modifies registry
    ensures fresh(tax.metric) && tax.metric.kind == Plain
    ensures tax.Name() == name && tax.Definition() == definition && tax.Symbol() == symbol
    ensures registry.types == old(registry.types)[name := tax]
  {
    var metric := NewMetric(name, definition, symbol);
    tax := TaxType(metric);
    registry.types := registry.types[name := tax];
  }

  /** The initialisation of the package-level tax types: VAT, filed under "VAT". */
  method NewTaxTypes() returns (registry: TaxTypeRegistry, vat: TaxType)
    ensures fresh(registry)
    ensures registry.types == map["VAT" := vat]
    ensures vat.Name() == "VAT" && vat.Definition() == "Value-added tax" && vat.Type() == "VAT"
  {
    registry := new TaxTypeRegistry();
    vat := NewTaxType(registry, "VAT", "Value-added tax", "VAT");
  }

  /** VAT marshals to the three ASCII bytes of "VAT". */
  lemma VatMarshalsToAscii(vat: TaxType)
    requires vat.Symbol() == "VAT"
    ensures vat.MarshalText() == Success([86, 65, 84])
  {
    var bytes := Utf8.Encode("VAT");
    Utf8.EncodeAscii("VAT");
    assert bytes[0] as int == 'V' as int == 86;
    assert bytes[1] as int == 'A' as int == 65;
    assert bytes[2] as int == 'T' as int == 84;
    assert bytes == [86, 65, 84];
  }
}
