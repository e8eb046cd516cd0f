# metric — a Dafny model

This project models the Go packages `metric` and `metric/money`. A **metric** is a standard of
measurement with a name, a definition and a symbol. A **unit** is a metric that belongs to a
**system of units**. A **derived unit** is built from **terms**: each term is a metric raised to an
integer power. A **quantity** is an amount tagged with a metric. A **unit converter** is a registry
of conversions, keyed by target unit and then by source unit. The **SI catalog** is a fixed
sequence of unit constructions that fills the `SI` system. **Money** is an amount of a
**currency**. **ISO currencies** and **tax types** are two small registries.

Operations that combine two quantities or two moneys ask for the very same metric object. The
model therefore gives every metric one Dafny class, `Metrics.Metric`, and compares metrics by
reference. Each Go implementation of the `Metric` interface that the model keeps as an object
becomes one `Kind` of that class:

- `metricImpl` is the `Plain` kind;
- `siBaseUnitImpl` is the `SIBase` kind;
- `derivedUnitImpl` is the `Derived` kind;
- `currencyImpl` is the `Currency` kind.

Two other implementations become values instead. A derived-unit term (`derivedUnitTermImpl`) is
the datatype `Metrics.Term`. A tax type (`taxTypeImpl`) is the datatype `TaxTypes.TaxType`, which
wraps a plain metric.

The Go type assertion `m.(Unit)` becomes `Metric.IsUnit()`. The package-wide maps and the `SI`
system are explicit objects, and the methods that fill them take those objects as arguments:

- `SystemOfUnits`;
- `UnitConverter`;
- `ISOCurrencies`;
- `TaxTypeRegistry`.

Package initialisation becomes four methods: `NewSICatalog`, `RegisterTemperatureConversions`,
`NewIsoCatalog` and `NewTaxTypes`.

Each file models one source file:

- `metric.dfy` models `metric.go`.
- `derived_unit.dfy` models `metric_derrived_unit.go`.
- `quantity.dfy` models `metric_quantity.go`.
- `unit_converter.dfy` models `metric_unit_converter.go`.
- `si.dfy` models `metric_si.go`.
- `money.dfy`, `money_currency.dfy` and `money_tax_type.dfy` model the `money` package.

Four support files hold shared definitions:

- `errors.dfy` holds the error kinds, one constructor per Go error value or type.
- `wrappers.dfy` holds `Option` and `Result`.
- `decimal_text.dfy` models `fmt.Sprint` on an `int`, and proves that its output reads back as the same integer.
- `utf8.dfy` models `[]byte(s)` as UTF-8 encoding, and proves that decoding inverts it.

Amounts are abstract numbers:

- A quantity's amount is a `real`.
- A money's amount is the integer coefficient of its decimal at the currency's scale, i.e. its number of minor units.
- Rounding policies, conversion functions and `Tax.Calculate` are opaque function values.

## Model

| member | source | states |
|---|---|---|
| Metrics.NewMetric | metric.go:25-43 | a fresh metric whose `Name`, `Definition` and `Symbol` are exactly the arguments; it is plain and not a unit |
| Metrics.Metric.constructor | metric.go:25-31 | stores name, definition, symbol and kind exactly as given |
| Metrics.Metric.Name | metric.go:33-35 | the stored name; the same accessor serves derived units (metric_derrived_unit.go:43-45), SI base units (metric_si.go:142-144) and currencies (money/currency.go:108-110) |
| Metrics.Metric.Definition | metric.go:37-39 | the stored definition, for every kind (metric_derrived_unit.go:51-53, metric_si.go:146-148, money/currency.go:112-114) |
| Metrics.Metric.Symbol | metric.go:41-43 | the stored symbol, for every kind (metric_derrived_unit.go:55-57, metric_si.go:150-152, money/currency.go:116-118) |
| Metrics.SameTextsDistinctMetrics | metric.go:25-31 | two `NewMetric` calls with the same texts give two distinct objects with equal texts |
| Metrics.Metric.String | metric.go:45-47 | every metric prints as its symbol; this is shared with derived units, SI base units and currencies |
| Metrics.NewSystemOfUnits | metric.go:72-90 | a fresh system with the given name and standardization body and an empty, valid unit list |
| Metrics.SystemOfUnits.constructor | metric.go:72-78 | stores name and body; no units |
| Metrics.SystemOfUnits.Name | metric.go:80-82 | the stored name of the system |
| Metrics.SystemOfUnits.StandardizationBody | metric.go:84-86 | the stored standardization body |
| Metrics.SystemOfUnits.Units | metric.go:88-90 | the units registered so far, in registration order |
| Metrics.Metric.IsUnit | metric_unit_converter.go:38 | the type assertion `.(Unit)`: true exactly for SI base units and derived units, registered or not; false for plain metrics and currencies |
| Metrics.Metric.SystemOfUnits | metric_si.go:154-156 | the system a unit was built with; null for a derived unit made without one (metric_derrived_unit.go:59-61) |
| Metrics.Metric.Terms | metric_derrived_unit.go:63-65 | the terms a derived unit was built with, in order |
| Metrics.Metric.Code | money/currency.go:120-122 | the currency's stored code |
| Metrics.Metric.Decimal | money/currency.go:124-126 | the currency's stored number of decimal places |
| Metrics.SystemOfUnits.AppendUnit | metric.go:92-94 | the unit list becomes the old list followed by the unit; when the system was valid and the unit names this system, every unit of the system still names it (the Go code does not check the unit) |
| Metrics.AppendUnitTwice | metric.go:92-94 | there is no duplicate check: appending one unit twice leaves two entries at the end |
| Metrics.Term.Symbol | metric_derrived_unit.go:100-102 | the base symbol, then `^`, then a canonical decimal numeral (with `-` when negative) whose value is the exponent |
| Metrics.Term.String | metric_derrived_unit.go:92-94 | a term prints as its symbol |
| Metrics.Term.Name | metric_derrived_unit.go:88-90 | delegates to the wrapped metric |
| Metrics.Term.Definition | metric_derrived_unit.go:96-98 | delegates to the wrapped metric |
| Metrics.Term.Exponent | metric_derrived_unit.go:104-106 | the stored exponent |
| Metrics.TermSymbolDeterminesExponent | metric_derrived_unit.go:100-102 | for one base symbol, two terms have equal symbols exactly when they have equal exponents |
| DecimalText.IntToText | metric_derrived_unit.go:101 | `fmt.Sprint` of an int: an optional `-` then canonical digits, reading back as the same integer |
| DecimalText.NatTextRoundTrip | metric_derrived_unit.go:101 | the digits of a natural number are canonical and read back as that number |
| DecimalText.NatToText | metric_derrived_unit.go:101 | canonical digits; the text is `0` exactly for zero |
| DerivedUnits.NewDerivedUnit | metric_derrived_unit.go:27-41 | a fresh unit storing name, definition, symbol, system and terms verbatim; `Terms()` is the given sequence; with a system, it is appended once at the end of that system's units; with none, no system changes |
| DerivedUnits.NewDerivedUnitTerm | metric_derrived_unit.go:80-86 | a term with the given metric and exponent |
| DerivedUnits.TermSymbolExamples | metric_derrived_unit.go:100-102 | `m` squared prints `m^2`; `s` to the minus one prints `s^-1` |
| Quantities.NewQuantity | metric_quantity.go:67-72 | stores amount and metric |
| Quantities.Quantity.Amount | metric_quantity.go:74-76 | the stored amount |
| Quantities.Quantity.Metric | metric_quantity.go:82-84 | the stored metric |
| Quantities.Quantity.Add | metric_quantity.go:86-92 | fails with `IncompatibleMetric(q.metric, q2.metric)` exactly when the metrics are different objects; otherwise the sum on the receiver's metric |
| Quantities.Quantity.Subtract | metric_quantity.go:94-100 | as Add, with the difference |
| Quantities.Quantity.Multiply | metric_quantity.go:102-104 | never fails; the amount times the multiplier, same metric |
| Quantities.Quantity.Round | metric_quantity.go:123-125 | never fails; the policy applied to the amount, same metric |
| Quantities.RoundingPolicy.Name | metric_rounding_policy.go:67-69 | the policy's stored name; its rounding is an opaque real-to-real function |
| Quantities.Quantity.Divide | metric_quantity.go:127-132 | fails with `DivisionByZero` exactly when the divisor is zero; otherwise the quotient on the same metric |
| Quantities.Quantity.Equals | metric_quantity.go:151-158 | fails with `IncompatibleMetric` exactly on different metrics; otherwise amount equality |
| Quantities.Quantity.GreaterThan | metric_quantity.go:160-167 | fails with `IncompatibleMetric` exactly on different metrics; otherwise strict `>` |
| Quantities.Quantity.LessThan | metric_quantity.go:169-176 | fails with `IncompatibleMetric` exactly on different metrics; otherwise strict `<` |
| Quantities.Compare | metric_quantity.go:156 | a three-way comparison: -1, 0 or 1 as the first amount is below, equal to or above the second |
| Quantities.MultiplyBy | metric_quantity.go:106-121 | never fails; the product amount on a fresh unregistered derived unit with symbol `symA*symB` and terms `[(A,1),(B,1)]`; name and definition are built from both symbols |
| Quantities.DivideBy | metric_quantity.go:134-149 | never fails and has no zero guard; the quotient on a fresh unregistered derived unit with symbol `symA/symB` and terms `[(A,1),(B,-1)]` |
| Quantities.MultiplyByTwice | metric_quantity.go:111-118 | two products of the same operands have distinct units with equal symbols, so adding them fails |
| Quantities.AddSubtractRoundTrip | metric_quantity.go:86-100 | adding then subtracting the same quantity gives the original back |
| Quantities.AddZeroIsIdentity | metric_quantity.go:86-92 | adding zero on the same metric changes nothing |
| Quantities.MultiplyDivideRoundTrip | metric_quantity.go:102-132 | multiplying then dividing by the same non-zero number gives the original back |
| Quantities.ComparisonTrichotomy | metric_quantity.go:151-176 | on one metric exactly one of Equals, GreaterThan and LessThan holds |
| Quantities.LessThanIsConverseOfGreaterThan | metric_quantity.go:160-176 | `a < b` exactly when `b > a` |
| UnitConversion.StandardConversion.Convert | metric_unit_converter.go:85-96 | `MetricIsNotUnit` unless the quantity is on the captured source unit; the function's error passes through unchanged; otherwise the function's amount on the captured target unit, whatever metric the function returned |
| UnitConversion.Register | metric_unit_converter.go:76-80 | `[target][source]` is the new conversion, the inner map is created when missing, and every other entry is kept |
| UnitConversion.UnitConverter.constructor | metric_unit_converter.go:14-16 | an empty registry |
| UnitConversion.UnitConverter.GetConversion | metric_unit_converter.go:51-58 | `NoConversion` exactly when nothing is filed under `[target][source]`; otherwise that entry |
| UnitConversion.UnitConverter.Convert | metric_unit_converter.go:37-49 | the not-a-unit check comes first and names the metric; then `NoConversion` for a missing pair; otherwise the filed conversion's own Convert |
| UnitConversion.UnitConverter.NewStandardConversion | metric_unit_converter.go:69-83 | returns the conversion and files it under `[target][source]`, overwriting only that pair |
| UnitConversion.RegisterKeepsWellFiled | metric_unit_converter.go:76-80 | after registration every entry is still filed under its own target and source |
| UnitConversion.ConvertLandsOnTarget | metric_unit_converter.go:37-49 | on a filed pair, the converter returns the registered function's amount on the requested target |
| UnitConversion.RegisterTemperatureConversions | metric_unit_converter.go:23-35 | files Celsius to Kelvin and Kelvin to Celsius, each offset by the absolute zero -273.15 |
| UnitConversion.CelsiusToKelvinFn | metric_unit_converter.go:25-28 | always succeeds with the amount minus the absolute zero -273.15, tagged with Kelvin |
| UnitConversion.KelvinToCelsiusFn | metric_unit_converter.go:31-34 | always succeeds with the amount plus the absolute zero -273.15, tagged with Celsius |
| UnitConversion.TemperatureRoundTrip | metric_unit_converter.go:23-35 | c degrees Celsius convert to c + 273.15 kelvin, and back to c degrees Celsius |
| UnitConversion.RegisteredTemperatureConverts | metric_unit_converter.go:23-35 | after both registrations both pairs are filed with their own conversion |
| SIUnits.NewSIBaseUnit | metric_si.go:130-160 | a fresh SI base unit storing its fields, appended to the system; `SystemOfUnits()` is that system and `String()` is the symbol |
| SIUnits.NewCatalogPart1 | metric_si.go:13-37 | meter, radian, steradian and area appended in that order, with their texts and terms |
| SIUnits.NewCatalogPart2 | metric_si.go:38-64 | volume, kilogram, second and speed appended in that order; speed is `[(meter,1),(second,-1)]` |
| SIUnits.NewCatalogPart3 | metric_si.go:65-92 | ampere, watt, kelvin and celsius appended in that order; watt is `[(meter,2),(kilogram,1),(second,-3)]`, celsius is `[(kelvin,1)]` and is a unit |
| SIUnits.NewCatalogPart4 | metric_si.go:93-120 | mole, candela, lumen and lux appended in that order |
| SIUnits.NewSICatalog | metric_si.go:10-121 | the system `SI` of body `BIPM` holds exactly the 16 catalog units, distinct and in declaration order, each a unit of that system, with the catalog's texts and terms |
| Currencies.NewCurrency | money/currency.go:84-93 | a fresh currency storing its five fields; it is not a unit and prints as its symbol |
| Currencies.NewNonISOCurrency | money/currency.go:104-106 | the same as NewCurrency; no registry is touched |
| Currencies.ISOCurrencies.constructor | money/currency.go:39-41 | an empty registry |
| Currencies.ISOCurrencies.Get | money/currency.go:34-37 | the currency filed under the code, or None when the code was never registered |
| Currencies.NewISOCurrency | money/currency.go:95-101 | a fresh currency filed under its code, overwriting any earlier one; every other code keeps its entry |
| Currencies.NewIsoCatalog | money/currency.go:42-74 | USD, EUR, PLN and GBP are filed under their codes as four distinct currencies, each with the name, symbol, definition, code and two decimal places the source declares; an unknown code gives None |
| TaxTypes.TaxType.Name | money/tax_type.go:12-14 | delegates to the wrapped metric |
| TaxTypes.TaxType.Definition | money/tax_type.go:12-14 | delegates to the wrapped metric |
| TaxTypes.TaxType.Symbol | money/tax_type.go:12-14 | delegates to the wrapped metric |
| TaxTypes.TaxType.Type | money/tax_type.go:35-37 | the symbol |
| TaxTypes.TaxType.MarshalText | money/tax_type.go:16-18 | never an error; the bytes are the one byte string that decodes as UTF-8 to the symbol, i.e. the symbol's own bytes |
| TaxTypes.TaxTypeRegistry.constructor | money/tax_type.go:20 | an empty registry |
| TaxTypes.NewTaxType | money/tax_type.go:22-29 | a fresh plain metric with the given texts, filed under its name and overwriting any earlier entry of that name |
| TaxTypes.NewTaxTypes | money/tax_type.go:31-33 | the registry holds exactly `VAT`, whose name and symbol are `VAT` |
| TaxTypes.VatMarshalsToAscii | money/tax_type.go:16-18 | `VAT` marshals to the bytes 86, 65, 84 with no error |
| Utf8.DecodeEncode | money/tax_type.go:17 | decoding the UTF-8 encoding of any string gives the string back |
| Utf8.Encode | money/tax_type.go:17 | `[]byte(s)`: the concatenated UTF-8 bytes of the characters, between one and four bytes per character; `Utf8.DecodeEncode` and `Utf8.EncodeDecode` make it the one byte string that decodes to s |
| Utf8.EncodeChar | money/tax_type.go:17 | the UTF-8 bytes of one character: as many as its code point needs, a single byte equal to it below 0x80, continuation bytes after the first |
| Utf8.EncodeDecode | money/tax_type.go:17 | any byte string that decodes to a string is that string's encoding, so a string has exactly one byte form |
| Utf8.DecodedFirstIsEncoding | money/tax_type.go:17 | a well-formed first sequence is exactly the encoding of the character it decodes to |
| Utf8.OverlongRejected | money/tax_type.go:17 | the overlong two-byte spelling of `A` does not decode |
| Utf8.EncodeAscii | money/tax_type.go:17 | an ASCII string encodes one byte per character, each equal to the character's code |
| Money.NewMoney | money/money.go:16-21 | the amount is exactly the given signed minor units, in the given currency; the 64-bit range is the parameter's `int64` type; a scale outside 0..19 makes the source panic and is excluded by the precondition |
| Money.Money.MinorUnit | money/money.go:24-26 | the coefficient without its sign |
| Money.Money.Metric | money/money.go:36-38 | the currency, as a metric |
| Money.Money.Currency | money/money.go:41-43 | the currency |
| Money.Money.IsZero | money/money.go:195-197 | true exactly when the amount is zero |
| Money.Money.Add | money/money.go:66-76 | `IncompatibleMetric(m.currency, m2.currency)` exactly when the currencies are different objects, checked first; then `DecimalOverflow` when the sum exceeds 19 digits; otherwise the sum in the receiver's currency |
| Money.Money.Subtract | money/money.go:81-92 | as Add, with the difference |
| Money.Money.Equals | money/money.go:164-170 | fails exactly on different currencies; otherwise amount equality |
| Money.Money.GreaterThan | money/money.go:175-181 | fails exactly on different currencies; otherwise "not less", i.e. `>=` |
| Money.Money.LessThan | money/money.go:186-192 | fails exactly on different currencies; otherwise `<` |
| Money.Money.AfterTax | money/money.go:46-51 | the money plus the tax due on it when the addition succeeds; otherwise the zero money |
| Money.Tax.Calculate | money/tax.go:31-36 | the tax due on a money, as the tax's opaque function computes it |
| Money.AfterTaxes | money/money.go:54-61 | the money itself for no taxes; otherwise the money after only the last tax |
| Money.AfterTaxesDropsEarlierTaxes | money/money.go:54-61 | with two taxes the first leaves no trace; with none the money is unchanged |
| Money.MinorUnitExamples | money/money.go:66-92 | 10 + 100 = 110 and 100 - 10 = 90 in one currency; a second currency is refused |
| Money.GreaterThanIsNotLess | money/money.go:175-192 | on one currency GreaterThan is exactly the negation of LessThan, and true on equal amounts |
| Money.GreaterThanOnEqualAmounts | money/money.go:180 | 10 compared with 10 is "greater" |
| Money.AddSubtractRoundTrip | money/money.go:66-92 | adding then subtracting the same money gives the original back while the sum fits |
| Money.Money.StrictGreaterThan | money/money.go:172-175 | the documented comparison: strict `>` |
| Money.AfterAllTaxes | money/money.go:53-54 | the documented behaviour: every tax added to the running total |
| Money.AllTaxesAddsEveryTax | money/money.go:53-54 | when every tax is in the money's currency and every partial sum fits, the result is the money plus the sum of all taxes |

## Left out

- Rounding policies (`metric_rounding_policy.go`) are floating-point numerics. A policy is only a name and an opaque amount-to-amount function.
- Quantities.Quantity.Equals, GreaterThan and LessThan compare exact reals. The `big.Float` comparison panics on NaN, and that is not modelled.
- Quantities.DivideBy: the amount for a zero divisor is left unspecified. Go gives an IEEE infinity or NaN there, which a real cannot hold.
- Quantities.AddSubtractRoundTrip holds for exact reals only. Go's float64 rounding breaks it: 0.1 + 0.2 is 0.30000000000000004, and subtracting 0.2 gives 0.10000000000000003, which `Equals` finds different from 0.1.
- Quantities.MultiplyDivideRoundTrip holds for exact reals only. Go's float64 rounding and overflow break it: 1e308 times 10 is +Inf, and +Inf divided by 10 stays +Inf, not 1e308.
- UnitConversion.TemperatureRoundTrip holds over exact reals; it is not a statement about float64 rounding of the 273.15 offset.
- A derived-unit term used directly as a quantity's metric is not modelled: a term is a value, not a metric object.
- TaxTypes.TaxType is a wrapper value, not a `Metrics.Metric`. So a tax type cannot be a quantity's metric, as it is in `NewTax` (money/tax.go:15), and the `Tax` quantity is not modelled.
- `Units()` returns the slice itself in Go, so a caller could alias and change it. The model returns the sequence as a value.
- Message texts are not modelled: `ErrIncompatibleMetric.Error()`, the `fmt.Errorf` wrappings and `Quantity.String`. Errors are the `Errors.Error` kinds.
- Money `Multiply`, `Divide`, `DivideBy` and `String` are not modelled. They wrap the decimal library's float conversion and quotient precision, which are not part of this model.
- Money.Money.Add: overflow is "the coefficient exceeds 19 digits at the currency's scale". The decimal library may instead give up fractional digits and succeed; that rounding is not modelled.
- Money.Money.Subtract: the same overflow simplification as Add.
- Money amounts of one currency are assumed to share its scale, so a coefficient stands for the decimal.
- Money.Money.MinorUnit: in Go the coefficient depends on the decimal's scale, and the currency's decimal places are only a minimum scale for `Multiply` (money/money.go:99). So a money after `Tax.Calculate` can carry more digits: 1000 USD cents after a 23% tax can be 12.3000, whose `MinorUnit()` is 123000. The model's amount for it is 1230.
- `money/tax.go` is float percentage arithmetic and formatting; a tax is only its opaque `Calculate`.
- Go strings are taken to be valid Unicode text. `MarshalText` is modelled as UTF-8 encoding.
- Package-level globals and Go initialisation order are replaced by explicit registry objects and init methods. There is no concurrency.

## Findings

| source | as written | input that shows it | evidently intended | confidence | as-written member | corrected member |
|---|---|---|---|---|---|---|
| money/money.go:180 | `GreaterThan` returns "not less" | 10 compared with 10 in one currency gives true | strictly greater, as the doc comment at money/money.go:174 and `Quantity.GreaterThan` say | high, not executed | Money.GreaterThanOnEqualAmounts | Money.Money.StrictGreaterThan |
| money/money.go:57 | each loop step adds to `m`, not `out` | taxes of 10 and 23 on 1000 give 1230 | every tax is added, as the doc comment at money/money.go:53 says | medium, not executed | Money.AfterTaxesDropsEarlierTaxes | Money.AllTaxesAddsEveryTax |

Each corrected member sits beside the as-written one. `Money.Money.StrictGreaterThan` is proved to form a trichotomy with `Equals` and `LessThan`, in `Money.GreaterThanIsNotLess`. `Money.AfterAllTaxes` is proved against `Money.AllTaxes`, which `Money.AllTaxesAddsEveryTax` proves to add every tax. The corrected loop takes each tax on the original money `m` and adds it to the running total, `out = out.Add(t.Calculate(m))`; the compounding reading `out.Add(t.Calculate(out))` is not modelled. That reading was chosen because the doc comment speaks of adding tax values, and `AfterTax` computes its tax on the money it is called on, before tax. The as-written members stay. For `AfterTaxes`, the package's own tests assert the as-written result. For `GreaterThan`, the code says "not less", and no test decides between the two readings: its only test compares 100 with 10.
