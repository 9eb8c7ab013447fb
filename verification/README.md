# Theater statement printer, modelled in Dafny

This project models `StatementPrinter`, which bills a customer's invoice of
theater performances. Each performance names a play in a catalog. The play's
type string (`tragedy`, `comedy`, `history` or `pastoral`) selects a pricing
rule for the charge in cents and a rule for the volume credits. The printer
sums both over the invoice and lays out a statement. The statement has a header
line, one line per performance in invoice order, and two footers: the amount
owed and the credits earned.

Modules:

- `Theater` (`theater.dfy`) holds the data model: `Play`, `Performance`,
  `Invoice` and `PlayType`. It also holds the `Failure`/`Result` pair used for
  the three ways a run aborts. `ParseType` is the string switch with its
  unknown-type default. `Constants` is a record of every constant the pricing
  reads; no numeric values are assumed.
- `Pricing` (`pricing.dfy`) holds the per-performance charge (`Charge`) and
  volume credits (`VolumeCredits`). Java's truncating `/` is written out as
  `JavaDiv`.
- `Decimal` (`decimal.dfy`) renders an `int` the way `%s` prints a Java
  integer.
- `StatementPrinter` (`statement_printer.dfy`) holds the catalog lookup and
  the per-performance `Amount` and `Credits`. It has the totals in two forms:
  folds, and the source's accumulation loops proved equal to them. It also
  holds the statement as a sequence of lines.

Parameters rather than definitions:

- The pricing constants are the `Constants` record argument `c`.
- Currency rendering (`usd`) is the function argument `usd: int -> string`.

Three details are worth stating because they are easy to get wrong:

- A play id missing from the catalog has no error type of its own. `getPlay`
  returns null, and the next call dereferences it. The model calls this
  failure `NullPlay`.
- Tragedy and comedy share one credit threshold (`BASE_VOLUME_CREDIT_THRESHOLD`).
  History and pastoral each have their own.
- Only the comedy credit rule divides by `COMEDY_EXTRA_VOLUME_FACTOR`. If that
  constant is zero, Java throws `ArithmeticException` for a comedy performance
  only. The model calls this failure `DivisionByZero`. A statement whose
  performances are all priceable can still fail this way, because the line
  loop prices charges only and the credits are computed afterwards.

## Model

| member | source | states |
|---|---|---|
| Theater.TypeName | src/main/java/theater/StatementPrinter.java:63-101 | each play type has a case label among the four recognised strings |
| Theater.ParseType | src/main/java/theater/StatementPrinter.java:63-107 | the type switch succeeds exactly on the four recognised strings, selects the type whose label is the string, and otherwise fails with "unknown type" carrying that string |
| Theater.ParseTypeName | src/main/java/theater/StatementPrinter.java:63-101 | switching on a type's own label selects that type, so the four branches are distinct |
| Pricing.Max0 | src/main/java/theater/StatementPrinter.java:125-126 | `Math.max(x, 0)` is at least 0 and at least x, and equals one of them |
| Pricing.JavaDiv | src/main/java/theater/StatementPrinter.java:132-144 | Java's truncating `/`, used by the comedy and pastoral credit bonuses; what it computes is stated by `JavaDivTruncates` and `JavaDivMonotone` |
| Pricing.JavaDivTruncates | src/main/java/theater/StatementPrinter.java:132-133 | integer division rounds toward zero: quotient times divisor lies between 0 and the dividend and within one divisor of it |
| Pricing.JavaDivMonotone | src/main/java/theater/StatementPrinter.java:132-144 | with a positive divisor the truncated quotient never decreases as the dividend grows, and is non-negative for a non-negative dividend |
| Pricing.Charge | src/main/java/theater/StatementPrinter.java:65-101 | the four arms of the `getAmount` switch; their properties are stated by `ChargeAtOrBelowThreshold`, `ChargeAboveThreshold`, `ComedyCharge`, `ChargeNonNegative` and `ChargeMonotone` |
| Pricing.VolumeCredits | src/main/java/theater/StatementPrinter.java:122-150 | the four arms of the `getVolumeCredits` switch, defined only where the comedy arm's divisor is non-zero; their properties are stated by `VolumeCreditsFormula`, `VolumeCreditsNonNegative` and `VolumeCreditsMonotone` |
| Pricing.ChargeAtOrBelowThreshold | src/main/java/theater/StatementPrinter.java:65-101 | tragedy, history and pastoral charge exactly their base amount when the audience is at most their threshold |
| Pricing.ChargeAboveThreshold | src/main/java/theater/StatementPrinter.java:65-101 | above the threshold they charge base plus per-person rate times the seats over the threshold |
| Pricing.ComedyCharge | src/main/java/theater/StatementPrinter.java:73-83 | comedy charges base, plus flat over-capacity amount and per-person surcharge only above its threshold, plus the per-audience amount for every seat always |
| Pricing.VolumeCreditsFormula | src/main/java/theater/StatementPrinter.java:119-153 | credits are the seats over the type's credit threshold (never negative), plus audience truncated-divided by the comedy factor for comedy and by 2 for pastoral |
| Pricing.ChargeNonNegative | src/main/java/theater/StatementPrinter.java:60-110 | with non-negative rates and audience, every type's charge is non-negative |
| Pricing.ChargeMonotone | src/main/java/theater/StatementPrinter.java:60-110 | with non-negative rates, every type's charge is non-decreasing in the audience |
| Pricing.VolumeCreditsNonNegative | src/main/java/theater/StatementPrinter.java:119-153 | a non-negative audience earns non-negative credits of every type, given a positive comedy factor for comedy |
| Pricing.VolumeCreditsMonotone | src/main/java/theater/StatementPrinter.java:119-153 | credits of every type are non-decreasing in the audience, given a positive comedy factor for comedy |
| Pricing.TragedyExample | src/main/java/theater/StatementPrinter.java:65-127 | a tragedy for 55 with base 40000, threshold 30 and 1000 per extra seat costs 65000 and earns 25 credits |
| Pricing.ComedyExample | src/main/java/theater/StatementPrinter.java:73-134 | a comedy for 20 at threshold 20 pays no surcharge, and earns 0 + 20/20 = 1 credit |
| Decimal.NatToString | src/main/java/theater/StatementPrinter.java:39-42 | a natural number renders as a non-empty digit string with no leading zero |
| Decimal.IntToString | src/main/java/theater/StatementPrinter.java:39-42 | an integer renders with a leading minus exactly when it is negative |
| Decimal.NatToStringValue | src/main/java/theater/StatementPrinter.java:39-42 | the digits of a rendered natural number read back to that number |
| Decimal.IntToStringRoundTrip | src/main/java/theater/StatementPrinter.java:39-49 | the rendered audience or credit count is a decimal numeral that reads back to the same integer |
| Decimal.IntToStringInjective | src/main/java/theater/StatementPrinter.java:39-49 | distinct integers render differently |
| StatementPrinter.GetPlay | src/main/java/theater/StatementPrinter.java:187-189 | the lookup yields the catalog's play for the id, and fails with the missing id exactly when it is absent |
| StatementPrinter.PlayTypeOf | src/main/java/theater/StatementPrinter.java:63-101 | the type a priced performance is billed as is the one whose case label is its play's type string |
| StatementPrinter.Amount | src/main/java/theater/StatementPrinter.java:60-110 | a performance's charge exists exactly when its play is catalogued with a recognised type; it is then the type's charge for the audience, else the failure names the missing id or the unknown type |
| StatementPrinter.Credits | src/main/java/theater/StatementPrinter.java:119-153 | a performance's credits exist exactly when it is resolvable and, for a comedy, the factor is non-zero; they then equal the type's credit rule; otherwise the failure is the missing id or unknown type, or else the division by zero |
| StatementPrinter.ZeroFactorFailsOnlyComedy | src/main/java/theater/StatementPrinter.java:132-133 | with a zero comedy factor, a resolvable performance's credits fail exactly when it is a comedy, and then with the division by zero |
| StatementPrinter.UnknownTypeFails | src/main/java/theater/StatementPrinter.java:103-149 | an unrecognised type string makes both charge and credits fail with that string, no default value |
| StatementPrinter.TotalAmount | src/main/java/theater/StatementPrinter.java:160-166 | the total amount exists exactly when every performance resolves, is the sum of the per-performance charges, and is 0 for an empty invoice |
| StatementPrinter.TotalVolumeCredits | src/main/java/theater/StatementPrinter.java:173-179 | the total credits exist exactly when every performance's credits can be computed, are the sum of per-performance credits, and are 0 for an empty invoice |
| StatementPrinter.ComputeTotalAmount | src/main/java/theater/StatementPrinter.java:160-166 | the source's accumulation loop returns the same sum, or the same failure, as the fold |
| StatementPrinter.ComputeTotalVolumeCredits | src/main/java/theater/StatementPrinter.java:173-179 | the credit accumulation loop agrees with the fold |
| StatementPrinter.TotalAmountConcat | src/main/java/theater/StatementPrinter.java:160-166 | the total amount of two performance lists run back to back is the sum of their totals |
| StatementPrinter.TotalVolumeCreditsConcat | src/main/java/theater/StatementPrinter.java:173-179 | the total credits of two performance lists run back to back is the sum of their totals |
| StatementPrinter.TotalAmountFailsAtFirst | src/main/java/theater/StatementPrinter.java:160-166 | a failing total amount reports the first performance in invoice order that cannot be priced |
| StatementPrinter.TotalVolumeCreditsFailsAtFirst | src/main/java/theater/StatementPrinter.java:173-179 | a failing credit total reports the first performance in invoice order whose credits cannot be computed |
| StatementPrinter.TotalsNonNegative | src/main/java/theater/StatementPrinter.java:160-179 | with non-negative rates, a non-negative comedy factor and non-negative audiences, both totals of a fully creditable invoice are non-negative |
| StatementPrinter.Header | src/main/java/theater/StatementPrinter.java:33-35 | the first line, "Statement for " and the customer; its place in the statement is stated by `Statement` |
| StatementPrinter.PerformanceLine | src/main/java/theater/StatementPrinter.java:39-42 | the line "  name: amount (audience seats)"; `PerformanceLines` states which name, amount and audience each line carries |
| StatementPrinter.AmountFooter | src/main/java/theater/StatementPrinter.java:46-47 | the line "Amount owed is " and the rendered total; `Statement` states it carries the sum of the charges |
| StatementPrinter.CreditsFooter | src/main/java/theater/StatementPrinter.java:48-49 | the line "You earned N credits"; `Statement` states it carries the sum of the credits |
| StatementPrinter.PerformanceLines | src/main/java/theater/StatementPrinter.java:37-43 | the body has one line per performance, in invoice order, each naming the catalog play, its charge and its audience, and exists exactly when every performance resolves |
| StatementPrinter.PerformanceLinesFailAtFirst | src/main/java/theater/StatementPrinter.java:37-43 | a failing body reports the first performance in invoice order that cannot be priced |
| StatementPrinter.Statement | src/main/java/theater/StatementPrinter.java:32-51 | the statement exists exactly when every performance's charge and credits can be computed; it then has performances + 3 lines: header with the customer, line i+1 for performance i, the footer with the sum of charges, the footer with the sum of credits |
| StatementPrinter.StatementFailsAtFirst | src/main/java/theater/StatementPrinter.java:32-51 | a failing statement reports the missing play id, or else the unknown type, of the first unpriceable performance in invoice order; when every performance can be priced, the failure is the division by a zero factor, and the invoice holds a comedy |
| StatementPrinter.EmptyInvoiceStatement | src/main/java/theater/StatementPrinter.java:32-51 | an empty invoice gives just the header, "Amount owed is" with usd(0), and "You earned 0 credits" |

## Left out

- `usd` (src/main/java/theater/StatementPrinter.java:197-200) is a parameter
  of the statement. It formats with `NumberFormat`/`Locale.US` after dividing
  by `PERCENT_FACTOR`, whose type and value are not part of this model.
  Nothing is assumed about the rendered text.
- The platform line separator (`System.lineSeparator()`, `%n`). The statement
  is a sequence of lines, not one concatenated string.
- Java 32-bit `int` overflow. All arithmetic is on mathematical integers.
- The concrete values in the `Constants` class, which is not part of this
  model. Each constant is a field of the `Constants` argument. Properties
  state only the assumptions they need: `NonNegativeRates`, and a positive or
  non-negative `comedyExtraVolumeFactor`.
- The `StatementPrinter` constructor and the `Invoice`/`Performance`/`Play`
  classes beyond their getters. These are the immutable datatypes of `Theater`.
- The exception message text ("unknown type: %s"). The failure carries the
  type string the message is made from.
