/** Money: an amount of a currency. The amount is the decimal's coefficient at the
    currency's scale (minor units, so 10 USD cents is 10); two amounts combine only when
    their currencies are the same object. */
module Money {
  import opened Wrappers
  import opened Metrics
  import opened Errors

  /** The largest coefficient the decimal arithmetic holds: 19 digits. */
  const MaxCoefficient: int := 9_999_999_999_999_999_999

  predicate Representable(amount: int) {
    -MaxCoefficient <= amount <= MaxCoefficient
  }

  /** A tax, seen only through its Calculate: how much tax is due on a given amount of money. */
  datatype Tax = Tax(calculate: Money -> Money) {
    function Calculate(m: Money): Money {
      calculate(m)
    }
  }

  /** `Money{}`: the zero amount with no currency. */
  const Zero := Money(0, null)

  /** The decimal scales the decimal arithmetic accepts. */
  const MaxScale: int := 19

  /** A money of minorUnit smallest subdivisions of the currency: the coefficient is
      minorUnit at the currency's own scale; a scale outside 0..19 makes the source panic. */
  function NewMoney(minorUnit: int, currency: Metric): (m: Money)
    requires -0x8000_0000_0000_0000 <= minorUnit < 0x8000_0000_0000_0000
    requires currency.kind.Currency? && 0 <= currency.kind.decimal <= MaxScale
    ensures m.currency == currency && m.Currency() == currency
    ensures m.amount == minorUnit
    ensures m.MinorUnit() as int == if minorUnit < 0 then -minorUnit else minorUnit
    ensures m.IsZero() <==> minorUnit == 0
  {
    Money(minorUnit, currency)
  }

  datatype Money = Money(amount: int, currency: Metric?) {

    /** The coefficient without its sign: a negative money has the same minor units as its opposite. */
    function MinorUnit(): (u: nat)
      ensures u == amount || u == -amount
    {
      if amount < 0 then -amount else amount
    }

    /** The currency, seen as a metric. */
    function Metric(): Metrics.Metric? {
      currency
    }

    function Currency(): Metrics.Metric? {
      currency
    }

    /** Fails with IncompatibleMetric when the currencies differ (checked first), with
        DecimalOverflow when the sum does not fit; else the sum in the receiver's currency. */
    function Add(m2: Money): (r: Result<Money, Error>)
      ensures r.Success? <==> currency == m2.currency && Representable(amount + m2.amount)
      ensures currency != m2.currency ==> r == Failure(IncompatibleMetric(currency, m2.currency))
      ensures currency == m2.currency && !Representable(amount + m2.amount) ==> r == Failure(DecimalOverflow)
      ensures r.Success? ==> r.value.currency == currency && r.value.amount == amount + m2.amount
    {
      if currency != m2.Currency() then Failure(IncompatibleMetric(Metric(), m2.Metric()))
      else
        var cents := amount + m2.amount;
        if !Representable(cents) then Failure(DecimalOverflow)
        else Success(Money(cents, currency))
    }

    /** As Add, with the difference. */
    function Subtract(m2: Money): (r: Result<Money, Error>)
      ensures r.Success? <==> currency == m2.currency && Representable(amount - m2.amount)
      ensures currency != m2.currency ==> r == Failure(IncompatibleMetric(currency, m2.currency))
      ensures currency == m2.currency && !Representable(amount - m2.amount) ==> r == Failure(DecimalOverflow)
      ensures r.Success? ==> r.value.currency == currency && r.value.amount == amount - m2.amount
    {
      if currency != m2.Currency() then Failure(IncompatibleMetric(Metric(), m2.Metric()))
      else
        var cents := amount - m2.amount;
        if !Representable(cents) then Failure(DecimalOverflow)
        else Success(Money(cents, currency))
    }

    function Equals(m2: Money): (r: Result<bool, Error>)
      ensures r.Failure? <==> currency != m2.currency
      ensures r.Failure? ==> r.error == IncompatibleMetric(currency, m2.currency)
      ensures r.Success? ==> (r.value <==> amount == m2.amount)
    {
      if currency != m2.Currency() then Failure(IncompatibleMetric(Metric(), m2.Metric()))
      else Success(amount == m2.amount)
    }

    /** As written: "not less", so also true on equal amounts. */
    function GreaterThan(m2: Money): (r: Result<bool, Error>)
      ensures r.Failure? <==> currency != m2.currency
      ensures r.Failure? ==> r.error == IncompatibleMetric(currency, m2.currency)
      ensures r.Success? ==> (r.value <==> amount >= m2.amount)
    {
      if currency != m2.Currency() then Failure(IncompatibleMetric(Metric(), m2.Metric()))
      else Success(!(amount < m2.amount))
    }

    /** GreaterThan as its documentation describes it: strictly greater. */
    function StrictGreaterThan(m2: Money): (r: Result<bool, Error>)
      ensures r.Failure? <==> currency != m2.currency
      ensures r.Failure? ==> r.error == IncompatibleMetric(currency, m2.currency)
      ensures r.Success? ==> (r.value <==> amount > m2.amount)
    {
      if currency != m2.Currency() then Failure(IncompatibleMetric(Metric(), m2.Metric()))
      else Success(m2.amount < amount)
    }

    function LessThan(m2: Money): (r: Result<bool, Error>)
      ensures r.Failure? <==> currency != m2.currency
      ensures r.Failure? ==> r.error == IncompatibleMetric(currency, m2.currency)
      ensures r.Success? ==> (r.value <==> amount < m2.amount)
    {
      if currency != m2.Currency() then Failure(IncompatibleMetric(Metric(), m2.Metric()))
      else Success(amount < m2.amount)
    }

    predicate IsZero() {
      amount == 0
    }

    /** The money plus the tax due on it; a failed addition is dropped and gives Zero. */
    function AfterTax(t: Tax): (r: Money)
      ensures var tax := t.Calculate(this);
        r == if currency == tax.currency && Representable(amount + tax.amount)
             then Money(amount + tax.amount, currency) else Zero
    {
      var taxes := t.Calculate(this);
      match Add(taxes)
      case Success(afterTax) => afterTax
      case Failure(_) => Zero
    }
  }

  /** What AfterTaxes returns: the money itself for no taxes, else the money after only
      the last tax, since every step adds to the original money and not to the running total. */
  function LastTaxOnly(m: Money, taxes: seq<Tax>): Money {
    if |taxes| == 0 then m else m.AfterTax(taxes[|taxes| - 1])
  }

  /** AfterTaxes, as written. */
  method AfterTaxes(m: Money, taxes: seq<Tax>) returns (out: Money)
    ensures out == LastTaxOnly(m, taxes)
  {
    out := m;
    for i := 0 to |taxes|
      invariant out == LastTaxOnly(m, taxes[..i])
    {
      var added := m.Add(taxes[i].Calculate(m));
      out := if added.Success? then added.value else Zero;
      assert taxes[..i + 1][i] == taxes[i];
    }
    assert taxes[..|taxes|] == taxes;
  }

  /** Every tax in turn added to the running total, each computed on the original money. */
  function AllTaxes(m: Money, taxes: seq<Tax>): Money
  {
    if |taxes| == 0 then m
    else
      var before := AllTaxes(m, taxes[..|taxes| - 1]);
      match before.Add(taxes[|taxes| - 1].Calculate(m))
      case Success(v) => v
      case Failure(_) => Zero
  }

  /** AfterTaxes as its documentation describes it: every tax is added. */
  method AfterAllTaxes(m: Money, taxes: seq<Tax>) returns (out: Money)
    ensures out == AllTaxes(m, taxes)
  {
    out := m;
    for i := 0 to |taxes|
      invariant out == AllTaxes(m, taxes[..i])
    {
      var added := out.Add(taxes[i].Calculate(m));
      out := if added.Success? then added.value else Zero;
      assert taxes[..i + 1][..i] == taxes[..i];
    }
    assert taxes[..|taxes|] == taxes;
  }

  /** The sum of the tax amounts due on m. */
  function TaxTotal(m: Money, taxes: seq<Tax>): int {
    if |taxes| == 0 then 0 else TaxTotal(m, taxes[..|taxes| - 1]) + taxes[|taxes| - 1].Calculate(m).amount
  }

  /** When every tax is in m's currency and every partial sum fits, AllTaxes adds them all. */
  lemma {:induction false} AllTaxesAddsEveryTax(m: Money, taxes: seq<Tax>)
    requires forall i :: 0 <= i < |taxes| ==> taxes[i].Calculate(m).currency == m.currency
    requires forall k :: 0 <= k <= |taxes| ==> Representable(m.amount + TaxTotal(m, taxes[..k]))
    ensures AllTaxes(m, taxes) == Money(m.amount + TaxTotal(m, taxes), m.currency)
  {
    if |taxes| > 0 {
      var init := taxes[..|taxes| - 1];
      forall k | 0 <= k <= |init|
        ensures Representable(m.amount + TaxTotal(m, init[..k]))
      {
        assert init[..k] == taxes[..k];
      }
      assert taxes[..|taxes|] == taxes;
      AllTaxesAddsEveryTax(m, init);
    }
  }

  /** The as-written AfterTaxes ignores all but the last tax: with two taxes of the same
      currency, the first leaves no trace. */
  lemma AfterTaxesDropsEarlierTaxes(m: Money, t1: Tax, t2: Tax)
    ensures LastTaxOnly(m, [t1, t2]) == m.AfterTax(t2)
    ensures LastTaxOnly(m, [t2]) == m.AfterTax(t2)
    ensures LastTaxOnly(m, []) == m
  {
  }

  /** 10 + 100 = 110 and 100 - 10 = 90 in one currency; a second currency is refused. */
  lemma MinorUnitExamples(usd: Metric, pln: Metric)
    requires usd != pln
    ensures Money(10, usd).Add(Money(100, usd)) == Success(Money(110, usd))
    ensures Money(100, usd).Subtract(Money(10, usd)) == Success(Money(90, usd))
    ensures Money(100, usd).Subtract(Money(120, pln)) == Failure(IncompatibleMetric(usd, pln))
  {
  }

  /** Within one currency GreaterThan is exactly the negation of LessThan; StrictGreaterThan,
      LessThan and Equals are a trichotomy. */
  lemma GreaterThanIsNotLess(m: Money, m2: Money)
    requires m.currency == m2.currency
    ensures m.GreaterThan(m2).value == !m.LessThan(m2).value
    ensures m.GreaterThan(m2) == Success(true) <== m.Equals(m2) == Success(true)
    ensures var e, g, l := m.Equals(m2).value, m.StrictGreaterThan(m2).value, m.LessThan(m2).value;
      (e && !g && !l) || (!e && g && !l) || (!e && !g && l)
  {
  }

  /** The counterexample to GreaterThan's documentation: equal amounts compare as greater. */
  lemma GreaterThanOnEqualAmounts(usd: Metric)
    ensures Money(10, usd).GreaterThan(Money(10, usd)) == Success(true)
    ensures Money(10, usd).StrictGreaterThan(Money(10, usd)) == Success(false)
  {
  }

  /** Adding then subtracting the same money gives back the original when the sum fits. */
  lemma AddSubtractRoundTrip(m: Money, m2: Money)
    requires m.currency == m2.currency && Representable(m.amount) && Representable(m.amount + m2.amount)
    ensures m.Add(m2).Success? && m.Add(m2).value.Subtract(m2) == Success(m)
  {
  }
}
