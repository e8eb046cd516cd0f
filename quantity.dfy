/** Quantities: an amount tagged with a metric. Every operation returns a new value;
    the ones that combine two quantities demand the very same metric object. */
module Quantities {
  import opened Wrappers
  import opened Metrics
  import opened Errors
  import DerivedUnits

  /** A named rounding strategy; its arithmetic is a parameter of the model. */
  datatype RoundingPolicy = RoundingPolicy(name: string, round: real -> real) {
    function Name(): string {
      name
    }
  }

  datatype Quantity = Quantity(amount: real, metric: Metric) {

    function Amount(): real {
      amount
    }

    function Metric(): Metrics.Metric {
      metric
    }

    /** Fails exactly when the metrics are different objects; else the sum on the receiver's metric. */
    function Add(q2: Quantity): (r: Result<Quantity, Error>)
      ensures r.Failure? <==> metric != q2.metric
      ensures r.Failure? ==> r.error == IncompatibleMetric(metric, q2.metric)
      ensures r.Success? ==> r.value.metric == metric && r.value.amount == amount + q2.amount
    {
      if metric != q2.Metric() then Failure(IncompatibleMetric(metric, q2.Metric()))
      else Success(NewQuantity(amount + q2.Amount(), metric))
    }

    /** Fails exactly when the metrics are different objects; else the difference on the receiver's metric. */
    function Subtract(q2: Quantity): (r: Result<Quantity, Error>)
      ensures r.Failure? <==> metric != q2.metric
      ensures r.Failure? ==> r.error == IncompatibleMetric(metric, q2.metric)
      ensures r.Success? ==> r.value.metric == metric && r.value.amount == amount - q2.amount
    {
      if metric != q2.Metric() then Failure(IncompatibleMetric(metric, q2.Metric()))
      else Success(NewQuantity(amount - q2.Amount(), metric))
    }

    /** Never fails; scales the amount and keeps the metric. */
    function Multiply(multiplier: real): (r: Result<Quantity, Error>)
      ensures r.Success? && r.value.metric == metric && r.value.amount == amount * multiplier
    {
      Success(NewQuantity(amount * multiplier, metric))
    }

    /** Never fails; applies the policy to the amount and keeps the metric. */
    function Round(policy: RoundingPolicy): (r: Result<Quantity, Error>)
      ensures r.Success? && r.value.metric == metric && r.value.amount == policy.round(amount)
    {
      Success(NewQuantity(policy.round(amount), metric))
    }

    /** Fails exactly when the divisor is zero; else divides the amount and keeps the metric. */
    function Divide(divisor: real): (r: Result<Quantity, Error>)
      ensures r.Failure? <==> divisor == 0.0
      ensures r.Failure? ==> r.error == DivisionByZero
      ensures r.Success? ==> r.value.metric == metric && r.value.amount * divisor == amount
    {
      if divisor == 0.0 then Failure(DivisionByZero)
      else Success(NewQuantity(amount / divisor, metric))
    }

    /** Exact comparison of the amounts once the metrics are the same object. */
    function Equals(q2: Quantity): (r: Result<bool, Error>)
      ensures r.Failure? <==> metric != q2.metric
      ensures r.Failure? ==> r.error == IncompatibleMetric(metric, q2.metric)
      ensures r.Success? ==> (r.value <==> amount == q2.amount)
    {
      if metric != q2.Metric() then Failure(IncompatibleMetric(metric, q2.Metric()))
      else Success(Compare(amount, q2.Amount()) == 0)
    }

    function GreaterThan(q2: Quantity): (r: Result<bool, Error>)
      ensures r.Failure? <==> metric != q2.metric
      ensures r.Failure? ==> r.error == IncompatibleMetric(metric, q2.metric)
      ensures r.Success? ==> (r.value <==> amount > q2.amount)
    {
      if metric != q2.Metric() then Failure(IncompatibleMetric(metric, q2.Metric()))
      else Success(Compare(amount, q2.Amount()) > 0)
    }

    function LessThan(q2: Quantity): (r: Result<bool, Error>)
      ensures r.Failure? <==> metric != q2.metric
      ensures r.Failure? ==> r.error == IncompatibleMetric(metric, q2.metric)
      ensures r.Success? ==> (r.value <==> amount < q2.amount)
    {
      if metric != q2.Metric() then Failure(IncompatibleMetric(metric, q2.Metric()))
      else Success(Compare(amount, q2.Amount()) < 0)
    }
  }

  function NewQuantity(amount: real, metric: Metric): (q: Quantity)
    ensures q.Amount() == amount && q.Metric() == metric
  {
    Quantity(amount, metric)
  }

  /** The three-way comparison of big.Float's Cmp: -1, 0 or +1. */
  function Compare(x: real, y: real): (c: int)
    ensures -1 <= c <= 1
    ensures c < 0 <==> x < y
    ensures c == 0 <==> x == y
  {
    if x < y then -1 else if x == y then 0 else 1
  }

  /** MultiplyBy: never fails; the product of the amounts on a fresh, unregistered derived
      unit named and symbolised `A*B` with terms [(A, 1), (B, 1)]. */
  method MultiplyBy(q: Quantity, q2: Quantity) returns (r: Result<Quantity, Error>)
    ensures r.Success? && r.value.amount == q.amount * q2.amount
    ensures fresh(r.value.metric)
    ensures r.value.metric.Symbol() == q.metric.Symbol() + "*" + q2.metric.Symbol()
    ensures r.value.metric.Name() == q.metric.String() + "*" + q2.metric.String()
    ensures r.value.metric.Definition()
         == "Describes the product of " + q.metric.String() + " and " + q2.metric.String()
    ensures r.value.metric.kind == Derived(null, [Term(q.metric, 1), Term(q2.metric, 1)])
  {
    var name := q.metric.String() + "*" + q2.Metric().String();
    var definition := "Describes the product of " + q.metric.String() + " and " + q2.Metric().String();
    var symbol := q.metric.Symbol() + "*" + q2.Metric().Symbol();
    var du := DerivedUnits.NewDerivedUnit(name, definition, symbol, null,
      [DerivedUnits.NewDerivedUnitTerm(q.metric, 1), DerivedUnits.NewDerivedUnitTerm(q2.Metric(), 1)]);
    r := Success(NewQuantity(q.amount * q2.Amount(), du));
  }

  /** DivideBy: never fails and has no zero guard; the quotient of the amounts on a fresh,
      unregistered derived unit named and symbolised `A/B` with terms [(A, 1), (B, -1)].
      A zero divisor amount gives an amount the model leaves unspecified. */
  method DivideBy(q: Quantity, divisor: Quantity) returns (r: Result<Quantity, Error>)
    ensures r.Success?
    ensures divisor.amount != 0.0 ==> r.value.amount * divisor.amount == q.amount
    ensures fresh(r.value.metric)
    ensures r.value.metric.Symbol() == q.metric.Symbol() + "/" + divisor.metric.Symbol()
    ensures r.value.metric.Name() == q.metric.String() + "/" + divisor.metric.String()
    ensures r.value.metric.Definition()
         == "Describes the ratio between " + q.metric.String() + " and " + divisor.metric.String()
    ensures r.value.metric.kind == Derived(null, [Term(q.metric, 1), Term(divisor.metric, -1)])
  {
    var name := q.metric.String() + "/" + divisor.Metric().String();
    var definition := "Describes the ratio between " + q.metric.String() + " and " + divisor.Metric().String();
    var symbol := q.metric.Symbol() + "/" + divisor.Metric().Symbol();
    var du := DerivedUnits.NewDerivedUnit(name, definition, symbol, null,
      [DerivedUnits.NewDerivedUnitTerm(q.metric, 1), DerivedUnits.NewDerivedUnitTerm(divisor.Metric(), -1)]);
    var amount: real;
    if divisor.Amount() != 0.0 {
      amount := q.amount / divisor.Amount();
    } else {
      amount :| true;
    }
    r := Success(NewQuantity(amount, du));
  }

  /** Two products of the same operands: equal symbols, different units, so they
      cannot even be added to each other. */
  method MultiplyByTwice(q: Quantity, q2: Quantity) returns (p1: Quantity, p2: Quantity)
    ensures p1.metric != p2.metric
    ensures p1.metric.Symbol() == p2.metric.Symbol()
    ensures p1.Add(p2) == Failure(IncompatibleMetric(p1.metric, p2.metric))
  {
    var r1 := MultiplyBy(q, q2);
    var r2 := MultiplyBy(q, q2);
    p1, p2 := r1.value, r2.value;
  }

  /** Adding then subtracting the same quantity gives back the original, exactly. */
  lemma AddSubtractRoundTrip(q1: Quantity, q2: Quantity)
    requires q1.metric == q2.metric
    ensures q1.Add(q2).Success? && q1.Add(q2).value.Subtract(q2) == Success(q1)
  {
  }

  /** A zero amount on the same metric is neutral for Add. */
  lemma AddZeroIsIdentity(q: Quantity)
    ensures q.Add(Quantity(0.0, q.metric)) == Success(q)
    ensures q.Add(Quantity(0.0, q.metric)).value.Equals(q) == Success(true)
  {
  }

  /** Multiplying then dividing by the same non-zero factor gives back the original. */
  lemma MultiplyDivideRoundTrip(q: Quantity, k: real)
    requires k != 0.0
    ensures q.Multiply(k).value.Divide(k) == Success(q)
  {
    var m := q.Multiply(k).value;
    assert m == Quantity(q.amount * k, q.metric);
    assert (q.amount * k) / k == q.amount;
    assert m.Divide(k) == Success(Quantity((q.amount * k) / k, q.metric));
  }

  /** On one metric exactly one of Equals, GreaterThan and LessThan holds; on two they all fail alike. */
  lemma ComparisonTrichotomy(q1: Quantity, q2: Quantity)
    ensures q1.metric == q2.metric ==>
      var e, g, l := q1.Equals(q2).value, q1.GreaterThan(q2).value, q1.LessThan(q2).value;
      (e && !g && !l) || (!e && g && !l) || (!e && !g && l)
    ensures q1.metric != q2.metric ==>
      q1.Equals(q2) == q1.GreaterThan(q2) == q1.LessThan(q2)
      == Failure(IncompatibleMetric(q1.metric, q2.metric))
  {
  }

  /** LessThan and GreaterThan swap when the operands swap. */
  lemma LessThanIsConverseOfGreaterThan(q1: Quantity, q2: Quantity)
    requires q1.metric == q2.metric
    ensures q1.LessThan(q2) == q2.GreaterThan(q1)
  {
  }
}
