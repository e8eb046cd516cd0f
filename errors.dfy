/** The error values the packages return. Go's `error` is one interface; here it is one datatype. */
module Errors {
  import opened Wrappers
  import opened Metrics

  datatype Error =
    | IncompatibleMetric(m1: Metric?, m2: Metric?)   // ErrIncompatibleMetric{M1, M2}
    | DivisionByZero                                 // ErrDivisionByZero
    | NoConversion                                   // ErrNoConversion
    | MetricIsNotUnit(metricName: Option<string>)    // ErrMetricIsNotUnit, bare (None) or wrapped with the metric's name
    | DecimalOverflow                                // an overflow reported by the decimal arithmetic under money
    | Other(message: string)                         // any error a caller-supplied conversion function returns
}
