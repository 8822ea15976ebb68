/** The PAYE estimator (backend/src/agent-financial-planning/agent-financial-planning.service.ts):
    Personal Income Tax Act section 33 for the relief, Sixth Schedule for the rates. Whole naira, exact rationals. */
module Paye {
  import opened Rounding
  import opened Wrappers

  /** Math.round of a number of hundredths. */
  function RoundHundredths(n: int): int {
    (n + 50) / 100
  }

  datatype Band = Band(limit: Option<nat>, rate: nat)

  const BANDS := 6

  /** The bands in order; the last one has no limit. */
  function BandAt(i: nat): Band
    requires i < BANDS
  {
    if i == 0 then Band(Some(300_000), 7)
    else if i == 1 then Band(Some(300_000), 11)
    else if i == 2 then Band(Some(500_000), 15)
    else if i == 3 then Band(Some(500_000), 19)
    else if i == 4 then Band(Some(1_600_000), 21)
    else Band(None, 24)
  }

  datatype BandTax = BandTax(taxable: int, rate: nat, tax: int)

  datatype TaxEstimate = TaxEstimate(gross: int, relief: int, taxable: int, bands: seq<BandTax>, totalTax: int)

  function Gross(income: real): nat {
    var rounded := Round(income);
    if rounded < 0 then 0 else rounded
  }

  /** The higher of 200,000 and 1% of gross, plus 20% of gross, rounded. */
  function Relief(gross: nat): nat {
    RoundHundredths((if gross > 20_000_000 then gross else 20_000_000) + 20 * gross)
  }

  function Taxable(gross: nat): nat {
    if gross < Relief(gross) then 0 else gross - Relief(gross)
  }

  // ---- the reference: every naira taxed at its own marginal rate ----

  /** The rate, in percent, on the naira that follows the first k. */
  function MarginalRate(k: nat): nat {
    if k < 300_000 then 7
    else if k < 600_000 then 11
    else if k < 1_100_000 then 15
    else if k < 1_600_000 then 19
    else if k < 3_200_000 then 21
    else 24
  }

  /** The exact tax on a taxable income, in hundredths of a naira. */
  function ExactTax(taxable: nat): nat {
    if taxable == 0 then 0 else ExactTax(taxable - 1) + MarginalRate(taxable - 1)
  }

  function SumTaxable(bands: seq<BandTax>): int {
    if bands == [] then 0 else SumTaxable(bands[..|bands| - 1]) + bands[|bands| - 1].taxable
  }

  function SumTax(bands: seq<BandTax>): int {
    if bands == [] then 0 else SumTax(bands[..|bands| - 1]) + bands[|bands| - 1].tax
  }

  /** Where the i-th band begins. */
  function BandStart(i: nat): nat
    requires i < BANDS
  {
    if i == 0 then 0
    else if i == 1 then 300_000
    else if i == 2 then 600_000
    else if i == 3 then 1_100_000
    else if i == 4 then 1_600_000
    else 3_200_000
  }

  lemma {:induction false} FlatStretch(lo: nat, hi: nat, rate: nat)
    requires lo <= hi && forall k :: lo <= k < hi ==> MarginalRate(k) == rate
    ensures ExactTax(hi) == ExactTax(lo) + rate * (hi - lo)
    decreases hi
  {
    if lo < hi {
      FlatStretch(lo, hi - 1, rate);
      assert rate * (hi - lo) == rate * (hi - 1 - lo) + rate;
    }
  }

  /** The exact tax at a point inside (or at the end of) the i-th band. */
  lemma WithinBand(i: nat, amount: nat)
    requires i < BANDS
    requires BandAt(i).limit.Some? ==> amount <= BandAt(i).limit.value
    ensures ExactTax(BandStart(i) + amount) == ExactTax(BandStart(i)) + BandAt(i).rate * amount
    ensures BandAt(i).limit.Some? ==> i + 1 < BANDS && BandStart(i) + BandAt(i).limit.value == BandStart(i + 1)
  {
    FlatStretch(BandStart(i), BandStart(i) + amount, BandAt(i).rate);
  }

  /** A full band is taxed in whole naira. */
  lemma FullBand(i: nat)
    requires i < BANDS && BandAt(i).limit.Some?
    ensures 100 * RoundHundredths(BandAt(i).limit.value * BandAt(i).rate)
         == BandAt(i).limit.value * BandAt(i).rate
  {
  }

  /** Which bands are listed: in order, at their own rates, each but the last filled to its limit, and each taxed to
      within half a naira. */
  predicate BandsInOrder(bands: seq<BandTax>) {
    && |bands| <= BANDS
    && forall i :: 0 <= i < |bands| ==>
        && bands[i].rate == BandAt(i).rate
        && 0 < bands[i].taxable
        && -50 <= 100 * bands[i].tax - bands[i].rate * bands[i].taxable <= 50
        && (BandAt(i).limit.Some? ==> bands[i].taxable <= BandAt(i).limit.value)
        && (i < |bands| - 1 ==> BandAt(i).limit == Some(bands[i].taxable))
  }

  /** After i bands: what is listed, what is left, and the tax so far. */
  ghost predicate Progress(i: nat, taxable: nat, remaining: int, totalTax: int, bands: seq<BandTax>) {
    && i == |bands| <= BANDS && 0 <= remaining <= taxable
    && BandsInOrder(bands)
    && SumTaxable(bands) == taxable - remaining && SumTax(bands) == totalTax
    && (if remaining == 0 then totalTax == RoundHundredths(ExactTax(taxable))
        else
          && i < BANDS
          && taxable - remaining == BandStart(i) && 100 * totalTax == ExactTax(BandStart(i))
          && (i > 0 ==> BandAt(i - 1).limit == Some(bands[i - 1].taxable)))
  }

  /** What one band takes of the remaining income. */
  function InBand(i: nat, remaining: int): int
    requires i < BANDS
  {
    var limit := BandAt(i).limit;
    if limit.None? || remaining < limit.value then remaining else limit.value
  }

  lemma TotalsAppend(bands: seq<BandTax>, b: BandTax)
    ensures SumTaxable(bands + [b]) == SumTaxable(bands) + b.taxable
    ensures SumTax(bands + [b]) == SumTax(bands) + b.tax
  {
    assert (bands + [b])[..|bands|] == bands;
  }

  lemma TaxAdvances(i: nat, taxable: nat, remaining: int, totalTax: int)
    requires i < BANDS && 0 < remaining <= taxable
    requires taxable - remaining == BandStart(i) && 100 * totalTax == ExactTax(BandStart(i))
    ensures var inBand := InBand(i, remaining);
            var total := totalTax + RoundHundredths(inBand * BandAt(i).rate);
            && (inBand == remaining ==> total == RoundHundredths(ExactTax(taxable)))
            && (inBand != remaining ==>
                  && i + 1 < BANDS && BandAt(i).limit == Some(inBand)
                  && BandStart(i) + inBand == BandStart(i + 1) && 100 * total == ExactTax(BandStart(i + 1)))
  {
    var inBand := InBand(i, remaining);
    WithinBand(i, inBand);
    if inBand != remaining {
      FullBand(i);
    }
  }

  lemma BandStep(i: nat, taxable: nat, remaining: int, totalTax: int, bands: seq<BandTax>)
    requires Progress(i, taxable, remaining, totalTax, bands) && remaining > 0
    ensures var inBand := InBand(i, remaining);
            var tax := RoundHundredths(inBand * BandAt(i).rate);
            Progress(i + 1, taxable, remaining - inBand, totalTax + tax, bands + [BandTax(inBand, BandAt(i).rate, tax)])
  {
    hide ExactTax, SumTaxable, SumTax, BandStart;
    var inBand := InBand(i, remaining);
    var tax := RoundHundredths(inBand * BandAt(i).rate);
    var b := BandTax(inBand, BandAt(i).rate, tax);
    TotalsAppend(bands, b);
    TaxAdvances(i, taxable, remaining, totalTax);
    assert BandsInOrder(bands + [b]);
  }

  lemma AllTaxed(i: nat, taxable: nat, remaining: int, totalTax: int, bands: seq<BandTax>)
    requires Progress(i, taxable, remaining, totalTax, bands) && (remaining <= 0 || i >= BANDS)
    ensures BandsInOrder(bands) && SumTaxable(bands) == taxable && SumTax(bands) == totalTax
    ensures totalTax == RoundHundredths(ExactTax(taxable))
  {
  }

  lemma NothingTaxedYet(taxable: nat)
    ensures Progress(0, taxable, taxable, 0, [])
  {
  }

  method EstimateAnnualTax(income: real) returns (e: TaxEstimate)
    ensures e.gross == Gross(income) && e.relief == Relief(e.gross) && e.taxable == Taxable(e.gross)
    ensures BandsInOrder(e.bands)
    ensures SumTaxable(e.bands) == e.taxable && SumTax(e.bands) == e.totalTax
    ensures e.totalTax == RoundHundredths(ExactTax(e.taxable))
  {
    hide *;
    var gross := Gross(income);
    var relief := Relief(gross);
    var taxable := Taxable(gross);
    var bands: seq<BandTax> := [];
    var remaining: int := taxable;
    var totalTax := 0;
    var i := 0;
    NothingTaxedYet(taxable);
    while i < BANDS
      invariant 0 <= i <= BANDS
      invariant Progress(i, taxable, remaining, totalTax, bands)
    {
      if remaining <= 0 {
        break;
      }
      var band := BandAt(i);
      var inBand := InBand(i, remaining);
      var tax := RoundHundredths(inBand * band.rate);
      BandStep(i, taxable, remaining, totalTax, bands);
      bands := bands + [BandTax(inBand, band.rate, tax)];
      totalTax := totalTax + tax;
      remaining := remaining - inBand;
      i := i + 1;
    }
    AllTaxed(i, taxable, remaining, totalTax, bands);
    e := TaxEstimate(gross, relief, taxable, bands, totalTax);
  }

  // ---- what the estimate promises ----

  /** The estimated tax as a function of the income. */
  function TaxOf(income: real): int {
    RoundHundredths(ExactTax(Taxable(Gross(income))))
  }

  lemma {:induction false} ExactTaxClimbs(a: nat, b: nat)
    requires a <= b
    ensures ExactTax(a) + 7 * (b - a) <= ExactTax(b) <= ExactTax(a) + 24 * (b - a)
    decreases b
  {
    if a < b {
      ExactTaxClimbs(a, b - 1);
    }
  }

  /** Within half a naira of the exact tax, on every income. */
  lemma RoundedWithinHalf(income: real)
    ensures -50 <= 100 * TaxOf(income) - ExactTax(Taxable(Gross(income))) <= 50
  {
  }

  lemma GrossMonotone(x: real, y: real)
    requires x <= y
    ensures Gross(x) <= Gross(y)
  {
  }

  /** Raising the gross raises taxable income by no more than the rise, and never lowers it. */
  lemma {:induction false} TaxableClimbs(a: nat, b: nat)
    requires a <= b
    ensures Taxable(a) <= Taxable(b) <= Taxable(a) + (b - a)
    decreases b
  {
    if a < b {
      TaxableClimbs(a, b - 1);
    }
  }

  /** A higher income never pays less tax. */
  lemma TaxMonotone(x: real, y: real)
    requires x <= y
    ensures TaxOf(x) <= TaxOf(y)
  {
    GrossMonotone(x, y);
    TaxableClimbs(Gross(x), Gross(y));
    ExactTaxClimbs(Taxable(Gross(x)), Taxable(Gross(y)));
  }

  /** A higher income never takes home less. */
  lemma TakeHomeMonotone(x: real, y: real)
    requires x <= y
    ensures Gross(x) - TaxOf(x) <= Gross(y) - TaxOf(y)
  {
    GrossMonotone(x, y);
    TaxableClimbs(Gross(x), Gross(y));
    ExactTaxClimbs(Taxable(Gross(x)), Taxable(Gross(y)));
  }

  /** The relief covers everything exactly up to a gross income of 250,000. */
  lemma TaxThreshold(income: real)
    ensures Taxable(Gross(income)) == 0 <==> Gross(income) <= 250_000
  {
  }

  /** The income is rounded to the nearest naira, and a loss counts as nothing. */
  lemma GrossNearest(income: real)
    ensures income >= 0.0 ==> -0.5 <= Gross(income) as real - income <= 0.5
    ensures income <= 0.0 ==> Gross(income) == 0
  {
  }

  /** The relief is a fifth of gross plus the larger of 200,000 and a hundredth of gross, to within half a naira. */
  lemma ReliefExactly(gross: nat)
    ensures 100 * Relief(gross) >= 20 * gross + 20_000_000 - 50
    ensures 100 * Relief(gross) >= 21 * gross - 50
    ensures 100 * Relief(gross) <= 20 * gross + 20_000_000 + 50 || 100 * Relief(gross) <= 21 * gross + 50
  {
  }

  /** Above the threshold taxable income climbs 80 kobo a naira up to 20,000,000 and 79 from there on, up to rounding. */
  lemma TaxableSlope(a: nat, b: nat)
    requires 250_000 <= a <= b
    ensures b <= 20_000_000 ==> -100 <= 100 * (Taxable(b) - Taxable(a)) - 80 * (b - a) <= 100
    ensures 20_000_000 <= a ==> -100 <= 100 * (Taxable(b) - Taxable(a)) - 79 * (b - a) <= 100
  {
    TaxableAbove(a);
    TaxableAbove(b);
    ReliefExactly(a);
    ReliefExactly(b);
    hide Relief, Taxable;
  }

  lemma TaxableAbove(gross: nat)
    requires gross >= 250_000
    ensures Taxable(gross) == gross - Relief(gross)
  {
  }

  /** What the statutory bands come to, in hundredths, at the end of each, and 24 percent from there on. */
  lemma TaxAtBandEnds(more: nat)
    ensures ExactTax(0) == 0 && ExactTax(300_000) == 21_000_00 && ExactTax(600_000) == 54_000_00
    ensures ExactTax(1_100_000) == 129_000_00 && ExactTax(1_600_000) == 224_000_00 && ExactTax(3_200_000) == 560_000_00
    ensures ExactTax(3_200_000 + more) == 560_000_00 + 24 * more
  {
    assert ExactTax(0) == 0;
    WithinBand(0, 300_000);
    WithinBand(1, 300_000);
    WithinBand(2, 500_000);
    WithinBand(3, 500_000);
    WithinBand(4, 1_600_000);
    WithinBand(5, more);
    hide ExactTax;
  }
}
