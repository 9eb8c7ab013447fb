/**
 The statement pipeline of `StatementPrinter`: resolving each performance's
 play in the catalog, pricing it, summing the charges and credits over the
 invoice, and laying out the statement lines. The statement is a sequence of
 lines; the platform line separator that ends each of them is not modelled.
 Currency rendering (`usd`) is a parameter of the statement.
 */
module StatementPrinter {
  import opened Theater
  import opened Pricing
  import opened Decimal

  /** `getPlay`: the catalog entry of the performance's play. A missing id
      yields Java's null, which the caller dereferences at once, so it is the
      `NullPlay` failure here. */
  function GetPlay(plays: map<string, Play>, perf: Performance): (r: Result<Play>)
    ensures r.Ok? <==> perf.playID in plays
    ensures r.Ok? ==> r.value == plays[perf.playID]
    ensures r.Err? ==> r.error == NullPlay(perf.playID)
  {
    if perf.playID in plays then Ok(plays[perf.playID]) else Err(NullPlay(perf.playID))
  }

  /** A performance can be priced: its play is in the catalog and the play's
      type is one of the recognised names. */
  predicate Resolvable(plays: map<string, Play>, perf: Performance) {
    perf.playID in plays && plays[perf.playID].playType in KnownTypeNames
  }

  predicate AllResolvable(plays: map<string, Play>, perfs: seq<Performance>) {
    forall i :: 0 <= i < |perfs| ==> Resolvable(plays, perfs[i])
  }

  /** Why a performance cannot be priced: a missing play is found before its
      type is ever looked at. */
  function ResolveError(plays: map<string, Play>, perf: Performance): Failure
    requires !Resolvable(plays, perf)
  {
    if perf.playID !in plays then NullPlay(perf.playID)
    else UnknownType(plays[perf.playID].playType)
  }

  /** The play type whose case label is the catalog's type string. */
  function PlayTypeOf(plays: map<string, Play>, perf: Performance): (t: PlayType)
    requires Resolvable(plays, perf)
    ensures TypeName(t) == plays[perf.playID].playType
  {
    ParseType(plays[perf.playID].playType).value
  }

  /** `getAmount`: the charge of one performance, or the failure that stops
      the switch before it is computed. */
  function Amount(c: Constants, plays: map<string, Play>, perf: Performance): (r: Result<int>)
    ensures r.Ok? <==> Resolvable(plays, perf)
    ensures r.Ok? ==> r.value == Charge(c, PlayTypeOf(plays, perf), perf.audience)
    ensures r.Err? ==> r.error == ResolveError(plays, perf)
  {
    var play :- GetPlay(plays, perf);
    var t :- ParseType(play.playType);
    Ok(Charge(c, t, perf.audience))
  }

  /** A performance's credits can be computed: it can be priced, and if it
      is a comedy the bonus divisor is non-zero. */
  predicate Creditable(c: Constants, plays: map<string, Play>, perf: Performance) {
    Resolvable(plays, perf) && ComedyFactorUsable(c, PlayTypeOf(plays, perf))
  }

  predicate AllCreditable(c: Constants, plays: map<string, Play>, perfs: seq<Performance>) {
    forall i :: 0 <= i < |perfs| ==> Creditable(c, plays, perfs[i])
  }

  /** Why a performance's credits cannot be computed: the lookup and the type
      switch fail before the comedy arm divides. */
  function CreditsError(c: Constants, plays: map<string, Play>, perf: Performance): Failure
    requires !Creditable(c, plays, perf)
  {
    if !Resolvable(plays, perf) then ResolveError(plays, perf) else DivisionByZero
  }

  /** `getVolumeCredits`: the credits of one performance, or the failure. */
  function Credits(c: Constants, plays: map<string, Play>, perf: Performance): (r: Result<int>)
    ensures r.Ok? <==> Creditable(c, plays, perf)
    ensures r.Ok? ==> r.value == VolumeCredits(c, PlayTypeOf(plays, perf), perf.audience)
    ensures r.Err? ==> r.error == CreditsError(c, plays, perf)
  {
    var play :- GetPlay(plays, perf);
    var t :- ParseType(play.playType);
    if t == Comedy && c.comedyExtraVolumeFactor == 0 then Err(DivisionByZero)
    else Ok(VolumeCredits(c, t, perf.audience))
  }

  /** A zero comedy factor fails the credits of a comedy performance only;
      the other types never divide by it. */
  lemma ZeroFactorFailsOnlyComedy(c: Constants, plays: map<string, Play>, perf: Performance)
    requires c.comedyExtraVolumeFactor == 0
    requires Resolvable(plays, perf)
    ensures Credits(c, plays, perf).Err? <==> PlayTypeOf(plays, perf) == Comedy
    ensures Credits(c, plays, perf).Err? ==> Credits(c, plays, perf).error == DivisionByZero
  {
  }

  /** A type string outside the four case labels makes both the charge and
      the credits fail with that string, and nothing is computed. */
  lemma UnknownTypeFails(c: Constants, plays: map<string, Play>, perf: Performance)
    requires perf.playID in plays
    requires plays[perf.playID].playType !in KnownTypeNames
    ensures Amount(c, plays, perf) == Err(UnknownType(plays[perf.playID].playType))
    ensures Credits(c, plays, perf) == Err(UnknownType(plays[perf.playID].playType))
  {
  }

  function Sum(xs: seq<int>): int {
    if |xs| == 0 then 0 else xs[0] + Sum(xs[1..])
  }

  /** The charge of each performance, in invoice order. */
  function PerformanceCharges(c: Constants, plays: map<string, Play>, perfs: seq<Performance>): seq<int>
    requires AllResolvable(plays, perfs)
  {
    seq(|perfs|, i requires 0 <= i < |perfs| => Charge(c, PlayTypeOf(plays, perfs[i]), perfs[i].audience))
  }

  /** The credits of each performance, in invoice order. */
  function PerformanceCredits(c: Constants, plays: map<string, Play>, perfs: seq<Performance>): seq<int>
    requires AllCreditable(c, plays, perfs)
  {
    seq(|perfs|, i requires 0 <= i < |perfs| => VolumeCredits(c, PlayTypeOf(plays, perfs[i]), perfs[i].audience))
  }

  /** `getTotalAmount` as a fold: the sum of the performances' charges, or the
      failure of the first performance that cannot be priced
      (`TotalAmountFailsAtFirst`). */
  function TotalAmount(c: Constants, plays: map<string, Play>, perfs: seq<Performance>): (r: Result<int>)
    ensures r.Ok? <==> AllResolvable(plays, perfs)
    ensures r.Ok? ==> r.value == Sum(PerformanceCharges(c, plays, perfs))
    ensures |perfs| == 0 ==> r == Ok(0)
  {
    if |perfs| == 0 then Ok(0)
    else
      var a :- Amount(c, plays, perfs[0]);
      var rest :- TotalAmount(c, plays, perfs[1..]);
      assert AllResolvable(plays, perfs) by {
        forall i | 0 < i < |perfs| ensures Resolvable(plays, perfs[i]) {
          assert perfs[i] == perfs[1..][i - 1];
        }
      }
      assert PerformanceCharges(c, plays, perfs)[1..] == PerformanceCharges(c, plays, perfs[1..]);
      Ok(a + rest)
  }

  /** `getTotalVolumeCredits` as a fold: the sum of the performances'
      credits, or the failure of the first performance whose credits cannot be
      computed (`TotalVolumeCreditsFailsAtFirst`). */
  function TotalVolumeCredits(c: Constants, plays: map<string, Play>, perfs: seq<Performance>): (r: Result<int>)
    ensures r.Ok? <==> AllCreditable(c, plays, perfs)
    ensures r.Ok? ==> r.value == Sum(PerformanceCredits(c, plays, perfs))
    ensures |perfs| == 0 ==> r == Ok(0)
  {
    if |perfs| == 0 then Ok(0)
    else
      var v :- Credits(c, plays, perfs[0]);
      var rest :- TotalVolumeCredits(c, plays, perfs[1..]);
      assert AllCreditable(c, plays, perfs) by {
        forall i | 0 < i < |perfs| ensures Creditable(c, plays, perfs[i]) {
          assert perfs[i] == perfs[1..][i - 1];
        }
      }
      assert PerformanceCredits(c, plays, perfs)[1..] == PerformanceCredits(c, plays, perfs[1..]);
      Ok(v + rest)
  }

  /** `k` plus the value of `r`, or the failure of `r`. */
  function AddTo(k: int, r: Result<int>): Result<int> {
    if r.Ok? then Ok(k + r.value) else r
  }

  /** The accumulation loop of `getTotalAmount`, which agrees with the fold. */
  method ComputeTotalAmount(c: Constants, plays: map<string, Play>, perfs: seq<Performance>)
    returns (r: Result<int>)
    ensures r == TotalAmount(c, plays, perfs)
  {
    var result := 0;
    var i := 0;
    while i < |perfs|
      invariant 0 <= i <= |perfs|
      invariant TotalAmount(c, plays, perfs) == AddTo(result, TotalAmount(c, plays, perfs[i..]))
    {
      assert perfs[i..][1..] == perfs[i + 1..];
      var a := Amount(c, plays, perfs[i]);
      if a.Err? {
        return Err(a.error);
      }
      result := result + a.value;
      i := i + 1;
    }
    assert perfs[i..] == [];
    r := Ok(result);
  }

  /** The accumulation loop of `getTotalVolumeCredits`, which agrees with the
      fold. */
  method ComputeTotalVolumeCredits(c: Constants, plays: map<string, Play>, perfs: seq<Performance>)
    returns (r: Result<int>)
    ensures r == TotalVolumeCredits(c, plays, perfs)
  {
    var result := 0;
    var i := 0;
    while i < |perfs|
      invariant 0 <= i <= |perfs|
      invariant TotalVolumeCredits(c, plays, perfs) == AddTo(result, TotalVolumeCredits(c, plays, perfs[i..]))
    {
      assert perfs[i..][1..] == perfs[i + 1..];
      var v := Credits(c, plays, perfs[i]);
      if v.Err? {
        return Err(v.error);
      }
      result := result + v.value;
      i := i + 1;
    }
    assert perfs[i..] == [];
    r := Ok(result);
  }

  lemma {:induction false} SumConcat(xs: seq<int>, ys: seq<int>)
    ensures Sum(xs + ys) == Sum(xs) + Sum(ys)
  {
    if |xs| > 0 {
      assert (xs + ys)[1..] == xs[1..] + ys;
      SumConcat(xs[1..], ys);
    } else {
      assert xs + ys == ys;
    }
  }

  lemma {:induction false} SumNonNegative(xs: seq<int>)
    requires forall i :: 0 <= i < |xs| ==> xs[i] >= 0
    ensures Sum(xs) >= 0
  {
    if |xs| > 0 {
      SumNonNegative(xs[1..]);
    }
  }

  lemma AllResolvableConcat(plays: map<string, Play>, p1: seq<Performance>, p2: seq<Performance>)
    requires AllResolvable(plays, p1) && AllResolvable(plays, p2)
    ensures AllResolvable(plays, p1 + p2)
  {
    forall i | 0 <= i < |p1 + p2| ensures Resolvable(plays, (p1 + p2)[i]) {
      if i >= |p1| {
        assert (p1 + p2)[i] == p2[i - |p1|];
      }
    }
  }

  lemma PerformanceChargesConcat(c: Constants, plays: map<string, Play>, p1: seq<Performance>, p2: seq<Performance>)
    requires AllResolvable(plays, p1) && AllResolvable(plays, p2) && AllResolvable(plays, p1 + p2)
    ensures PerformanceCharges(c, plays, p1 + p2)
            == PerformanceCharges(c, plays, p1) + PerformanceCharges(c, plays, p2)
  {
    var all, xs, ys := PerformanceCharges(c, plays, p1 + p2),
                       PerformanceCharges(c, plays, p1), PerformanceCharges(c, plays, p2);
    forall i | 0 <= i < |all| ensures all[i] == (xs + ys)[i] {
      if i >= |p1| {
        assert (p1 + p2)[i] == p2[i - |p1|];
      }
    }
  }

  lemma AllCreditableConcat(c: Constants, plays: map<string, Play>, p1: seq<Performance>, p2: seq<Performance>)
    requires AllCreditable(c, plays, p1) && AllCreditable(c, plays, p2)
    ensures AllCreditable(c, plays, p1 + p2)
  {
    forall i | 0 <= i < |p1 + p2| ensures Creditable(c, plays, (p1 + p2)[i]) {
      if i >= |p1| {
        assert (p1 + p2)[i] == p2[i - |p1|];
      }
    }
  }

  lemma PerformanceCreditsConcat(c: Constants, plays: map<string, Play>, p1: seq<Performance>, p2: seq<Performance>)
    requires AllCreditable(c, plays, p1) && AllCreditable(c, plays, p2) && AllCreditable(c, plays, p1 + p2)
    ensures PerformanceCredits(c, plays, p1 + p2)
            == PerformanceCredits(c, plays, p1) + PerformanceCredits(c, plays, p2)
  {
    var all, xs, ys := PerformanceCredits(c, plays, p1 + p2),
                       PerformanceCredits(c, plays, p1), PerformanceCredits(c, plays, p2);
    forall i | 0 <= i < |all| ensures all[i] == (xs + ys)[i] {
      if i >= |p1| {
        assert (p1 + p2)[i] == p2[i - |p1|];
      }
    }
  }

  /** The total amount of two invoices run back to back is the sum of their
      totals: the total does not depend on how performances are grouped. */
  lemma TotalAmountConcat(c: Constants, plays: map<string, Play>, p1: seq<Performance>, p2: seq<Performance>)
    requires AllResolvable(plays, p1) && AllResolvable(plays, p2)
    ensures TotalAmount(c, plays, p1 + p2)
            == Ok(TotalAmount(c, plays, p1).value + TotalAmount(c, plays, p2).value)
  {
    AllResolvableConcat(plays, p1, p2);
    PerformanceChargesConcat(c, plays, p1, p2);
    SumConcat(PerformanceCharges(c, plays, p1), PerformanceCharges(c, plays, p2));
  }

  /** Likewise for the total credits. */
  lemma TotalVolumeCreditsConcat(c: Constants, plays: map<string, Play>, p1: seq<Performance>, p2: seq<Performance>)
    requires AllCreditable(c, plays, p1) && AllCreditable(c, plays, p2)
    ensures TotalVolumeCredits(c, plays, p1 + p2)
            == Ok(TotalVolumeCredits(c, plays, p1).value + TotalVolumeCredits(c, plays, p2).value)
  {
    AllCreditableConcat(c, plays, p1, p2);
    PerformanceCreditsConcat(c, plays, p1, p2);
    SumConcat(PerformanceCredits(c, plays, p1), PerformanceCredits(c, plays, p2));
  }

  /** With non-negative rates, a non-negative credit factor and non-negative
      audiences, neither total is negative. */
  lemma TotalsNonNegative(c: Constants, plays: map<string, Play>, perfs: seq<Performance>)
    requires NonNegativeRates(c) && c.comedyExtraVolumeFactor >= 0
    requires AllCreditable(c, plays, perfs)
    requires forall i :: 0 <= i < |perfs| ==> perfs[i].audience >= 0
    ensures TotalAmount(c, plays, perfs).value >= 0
    ensures TotalVolumeCredits(c, plays, perfs).value >= 0
  {
    assert AllResolvable(plays, perfs);
    var charges := PerformanceCharges(c, plays, perfs);
    var credits := PerformanceCredits(c, plays, perfs);
    forall i | 0 <= i < |perfs| ensures charges[i] >= 0 && credits[i] >= 0 {
      ChargeNonNegative(c, PlayTypeOf(plays, perfs[i]), perfs[i].audience);
      VolumeCreditsNonNegative(c, PlayTypeOf(plays, perfs[i]), perfs[i].audience);
    }
    SumNonNegative(charges);
    SumNonNegative(credits);
  }

  /** The line `String.format("  %s: %s (%s seats)", ...)` for one performance. */
  function PerformanceLine(usd: int -> string, name: string, cents: int, audience: int): string {
    "  " + name + ": " + usd(cents) + " (" + IntToString(audience) + " seats)"
  }

  /** The line a priced performance gets: the catalog's play name, the
      charge of the play's type for the audience, and the audience. */
  function LineFor(c: Constants, usd: int -> string, plays: map<string, Play>, perf: Performance): string
    requires Resolvable(plays, perf)
  {
    PerformanceLine(usd, plays[perf.playID].name, Charge(c, PlayTypeOf(plays, perf), perf.audience), perf.audience)
  }

  function Header(customer: string): string {
    "Statement for " + customer
  }

  function AmountFooter(usd: int -> string, total: int): string {
    "Amount owed is " + usd(total)
  }

  function CreditsFooter(credits: int): string {
    "You earned " + IntToString(credits) + " credits"
  }

  /** The body of the statement: one line per performance, in invoice order,
      naming the play, its charge and its audience. A performance that cannot
      be priced aborts the statement. */
  function PerformanceLines(c: Constants, usd: int -> string, plays: map<string, Play>, perfs: seq<Performance>)
    : (r: Result<seq<string>>)
    ensures r.Ok? <==> AllResolvable(plays, perfs)
    ensures r.Ok? ==> |r.value| == |perfs|
    ensures r.Ok? ==> forall i :: 0 <= i < |perfs| ==> r.value[i] == LineFor(c, usd, plays, perfs[i])
  {
    if |perfs| == 0 then Ok([])
    else
      var play :- GetPlay(plays, perfs[0]);
      var amount :- Amount(c, plays, perfs[0]);
      var rest :- PerformanceLines(c, usd, plays, perfs[1..]);
      assert AllResolvable(plays, perfs) by {
        forall i | 0 < i < |perfs| ensures Resolvable(plays, perfs[i]) {
          assert perfs[i] == perfs[1..][i - 1];
        }
      }
      var lines := [PerformanceLine(usd, play.name, amount, perfs[0].audience)] + rest;
      assert lines[0] == LineFor(c, usd, plays, perfs[0]);
      assert forall i :: 0 < i < |perfs| ==> lines[i] == rest[i - 1] && perfs[i] == perfs[1..][i - 1];
      Ok(lines)
  }

  /** `statement`: the header, the performance lines, and the two footers
      carrying the total amount and the total credits. */
  function Statement(c: Constants, usd: int -> string, invoice: Invoice, plays: map<string, Play>)
    : (r: Result<seq<string>>)
    ensures r.Ok? <==> AllCreditable(c, plays, invoice.performances)
    ensures r.Ok? ==>
              var perfs, lines := invoice.performances, r.value;
              && |lines| == |perfs| + 3
              && lines[0] == Header(invoice.customer)
              && (forall i :: 0 <= i < |perfs| ==> lines[i + 1] == LineFor(c, usd, plays, perfs[i]))
              && lines[|perfs| + 1] == AmountFooter(usd, Sum(PerformanceCharges(c, plays, perfs)))
              && lines[|perfs| + 2] == CreditsFooter(Sum(PerformanceCredits(c, plays, perfs)))
  {
    var perfs := invoice.performances;
    var lines :- PerformanceLines(c, usd, plays, perfs);
    // Every performance has been priced for its line, so the amount succeeds.
    var total := TotalAmount(c, plays, perfs).value;
    var credits :- TotalVolumeCredits(c, plays, perfs);
    Ok([Header(invoice.customer)] + lines + [AmountFooter(usd, total), CreditsFooter(credits)])
  }

  /** `k` is the first performance that cannot be priced. */
  predicate FirstUnresolvable(plays: map<string, Play>, perfs: seq<Performance>, k: int) {
    && 0 <= k < |perfs|
    && !Resolvable(plays, perfs[k])
    && AllResolvable(plays, perfs[..k])
  }

  lemma {:induction false} PerformanceLinesFailAtFirst(
    c: Constants, usd: int -> string, plays: map<string, Play>, perfs: seq<Performance>)
    requires PerformanceLines(c, usd, plays, perfs).Err?
    ensures exists k :: FirstUnresolvable(plays, perfs, k)
                        && PerformanceLines(c, usd, plays, perfs).error == ResolveError(plays, perfs[k])
  {
    if Resolvable(plays, perfs[0]) {
      PerformanceLinesFailAtFirst(c, usd, plays, perfs[1..]);
      var k :| FirstUnresolvable(plays, perfs[1..], k)
               && PerformanceLines(c, usd, plays, perfs[1..]).error == ResolveError(plays, perfs[1..][k]);
      assert perfs[1..][..k] == perfs[1..k + 1];
      forall j | 0 <= j < k + 1 ensures Resolvable(plays, perfs[j]) {
        if j > 0 {
          assert perfs[j] == perfs[1..][..k][j - 1];
        }
      }
      assert AllResolvable(plays, perfs[..k + 1]);
      assert FirstUnresolvable(plays, perfs, k + 1);
    } else {
      assert FirstUnresolvable(plays, perfs, 0);
    }
  }

  /** `k` is the first performance whose credits cannot be computed. */
  predicate FirstUncreditable(c: Constants, plays: map<string, Play>, perfs: seq<Performance>, k: int) {
    && 0 <= k < |perfs|
    && !Creditable(c, plays, perfs[k])
    && AllCreditable(c, plays, perfs[..k])
  }

  lemma {:induction false} TotalAmountFailsAtFirst(c: Constants, plays: map<string, Play>, perfs: seq<Performance>)
    requires TotalAmount(c, plays, perfs).Err?
    ensures exists k :: FirstUnresolvable(plays, perfs, k)
                        && TotalAmount(c, plays, perfs).error == ResolveError(plays, perfs[k])
  {
    if Resolvable(plays, perfs[0]) {
      TotalAmountFailsAtFirst(c, plays, perfs[1..]);
      var k :| FirstUnresolvable(plays, perfs[1..], k)
               && TotalAmount(c, plays, perfs[1..]).error == ResolveError(plays, perfs[1..][k]);
      forall j | 0 <= j < k + 1 ensures Resolvable(plays, perfs[j]) {
        if j > 0 {
          assert perfs[j] == perfs[1..][..k][j - 1];
        }
      }
      assert AllResolvable(plays, perfs[..k + 1]);
      assert FirstUnresolvable(plays, perfs, k + 1);
    } else {
      assert FirstUnresolvable(plays, perfs, 0);
    }
  }

  lemma {:induction false} TotalVolumeCreditsFailsAtFirst(c: Constants, plays: map<string, Play>, perfs: seq<Performance>)
    requires TotalVolumeCredits(c, plays, perfs).Err?
    ensures exists k :: FirstUncreditable(c, plays, perfs, k)
                        && TotalVolumeCredits(c, plays, perfs).error == CreditsError(c, plays, perfs[k])
  {
    if Creditable(c, plays, perfs[0]) {
      TotalVolumeCreditsFailsAtFirst(c, plays, perfs[1..]);
      var k :| FirstUncreditable(c, plays, perfs[1..], k)
               && TotalVolumeCredits(c, plays, perfs[1..]).error == CreditsError(c, plays, perfs[1..][k]);
      forall j | 0 <= j < k + 1 ensures Creditable(c, plays, perfs[j]) {
        if j > 0 {
          assert perfs[j] == perfs[1..][..k][j - 1];
        }
      }
      assert AllCreditable(c, plays, perfs[..k + 1]);
      assert FirstUncreditable(c, plays, perfs, k + 1);
    } else {
      assert FirstUncreditable(c, plays, perfs, 0);
    }
  }

  /** A statement that fails reports the first performance, in invoice
      order, that cannot be priced: its missing play id, or else its unknown
      type string. When every performance can be priced, the failure can only
      be the division of a comedy's credit bonus by a zero factor. No
      statement lines are produced. */
  lemma StatementFailsAtFirst(c: Constants, usd: int -> string, invoice: Invoice, plays: map<string, Play>)
    requires Statement(c, usd, invoice, plays).Err?
    ensures !AllResolvable(plays, invoice.performances) ==>
              exists k :: FirstUnresolvable(plays, invoice.performances, k)
                          && Statement(c, usd, invoice, plays).error
                             == ResolveError(plays, invoice.performances[k])
    ensures AllResolvable(plays, invoice.performances) ==>
              && Statement(c, usd, invoice, plays).error == DivisionByZero
              && c.comedyExtraVolumeFactor == 0
              && exists k :: 0 <= k < |invoice.performances|
                             && PlayTypeOf(plays, invoice.performances[k]) == Comedy
  {
    var perfs := invoice.performances;
    if !AllResolvable(plays, perfs) {
      PerformanceLinesFailAtFirst(c, usd, plays, perfs);
    } else {
      TotalVolumeCreditsFailsAtFirst(c, plays, perfs);
      var k :| FirstUncreditable(c, plays, perfs, k)
               && TotalVolumeCredits(c, plays, perfs).error == CreditsError(c, plays, perfs[k]);
      assert PlayTypeOf(plays, perfs[k]) == Comedy;
    }
  }

  /** An invoice without performances yields just the header and two footers
      showing a zero amount and zero credits. */
  lemma EmptyInvoiceStatement(c: Constants, usd: int -> string, customer: string, plays: map<string, Play>)
    ensures Statement(c, usd, Invoice(customer, []), plays)
            == Ok(["Statement for " + customer, "Amount owed is " + usd(0), "You earned 0 credits"])
  {
    assert DigitChar(0) == '0';
    assert NatToString(0) == [DigitChar(0)];
    assert IntToString(0) == "0";
    assert CreditsFooter(0) == "You earned 0 credits";
    assert [Header(customer)] + [] + [AmountFooter(usd, 0), CreditsFooter(0)]
           == ["Statement for " + customer, "Amount owed is " + usd(0), "You earned 0 credits"];
  }
}
