/** Membership benefits on a quote: preview, then commit (backend/src/concierge/membership.service.ts,
    with the amounts of createQuote in backend/src/commerce/commerce.service.ts). Exact rationals. */
module Membership {
  import opened Rounding
  import opened Wrappers
  import opened ScLedger

  datatype SubscriptionStatus = Pending | Active | Paused | Cancelled | Expired

  datatype CaseTier = Essential | Concierge

  datatype PricingZone = Lagos | SouthWest | OtherLocation

  datatype LineCategory = ServiceFee | ExternalCost | ThirdPartyProfessional | TaxStatutory

  datatype QuoteLine = QuoteLine(category: LineCategory, amount: real)

  type Time = int

  const BILLING_PERIOD := 30 * 24 * 60 * 60 * 1000

  /** When the current billing period began: one period before the renewal date, or at sign-up before the first. */
  function PeriodStartOf(startedAt: Time, renewsAt: Option<Time>): Time {
    if renewsAt.Some? then renewsAt.value - BILLING_PERIOD else startedAt
  }

  type Percent = x: real | 0.0 <= x <= 100.0 witness 0.0

  type Rate = x: real | x > 0.0 witness 1.0

  /** What a plan gives, and the subscription's locked exchange rate. */
  datatype Plan = Plan(discountPercent: Percent, eligiblePerMonth: nat, fxRate: Rate)

  datatype Preview = Preview(discountAmount: int, scAppliedNgn: int, finalAmount: int)

  /** A stored quote; the benefit columns are null when no benefit applied. */
  datatype Quote = Quote(
    id: QuoteId,
    amount: real,
    subscribed: bool,
    baseAmount: Option<real>,
    nonServiceFee: Option<real>,
    discountAmount: Option<int>,
    scAppliedNgn: Option<int>)

  function Max(a: int, b: int): int {
    if a < b then b else a
  }

  function Discount(base: real, percent: real): int {
    Round(base * (percent / 100.0))
  }

  /** The credit a preview applies, before it is rounded: none outside the priced zones. */
  function PreviewCredit(afterDiscount: real, zone: PricingZone, balanceUsd: real, fxRate: real): real {
    if zone == OtherLocation then 0.0 else Max0(Min(balanceUsd * fxRate, afterDiscount))
  }

  function PreviewBenefit(tier: CaseTier, plan: Option<Plan>, used: nat, base: real, zone: PricingZone, balanceUsd: real)
    : Option<Preview>
  {
    if tier != Concierge || plan.None? || used >= plan.value.eligiblePerMonth then None
    else
      var discount := Discount(base, plan.value.discountPercent);
      var after := base - discount as real;
      var credit := PreviewCredit(after, zone, balanceUsd, plan.value.fxRate);
      Some(Preview(discount, Round(credit), Max(0, Round(after - credit))))
  }

  function SumLines(lines: seq<QuoteLine>, serviceFee: bool): real {
    if lines == [] then 0.0
    else
      SumLines(lines[..|lines| - 1], serviceFee)
      + if (lines[|lines| - 1].category == ServiceFee) == serviceFee then lines[|lines| - 1].amount else 0.0
  }

  /** The quote row createQuote stores: the benefit touches the service fee only. */
  function CreateQuote(id: QuoteId, lines: seq<QuoteLine>, tier: CaseTier, plan: Option<Plan>, used: nat,
                       zone: PricingZone, balanceUsd: real): Quote {
    var fee, other := SumLines(lines, true), SumLines(lines, false);
    var benefit := if tier == Concierge && fee > 0.0 then PreviewBenefit(tier, plan, used, fee, zone, balanceUsd) else None;
    match benefit
    case None => Quote(id, fee + other, false, Some(fee), Some(other), None, None)
    case Some(p) =>
      Quote(id, p.finalAmount as real + other, true, Some(fee), Some(other), Some(p.discountAmount), Some(p.scAppliedNgn))
  }

  datatype Commitment = Commitment(rows: seq<ScRow>, finalAmount: real, adjusted: bool)

  function OrZero(x: Option<int>): int {
    if x.Some? then x.value else 0
  }

  function BaseOf(q: Quote): real {
    if q.baseAmount.Some? then q.baseAmount.value else q.amount
  }

  function OtherOf(q: Quote): real {
    if q.nonServiceFee.Some? then q.nonServiceFee.value else 0.0
  }

  /** Acceptance re-validates against the subscription and balance of now; only here is credit debited. */
  function CommitBenefit(rows: seq<ScRow>, q: Quote, status: Option<SubscriptionStatus>, fxRate: Rate): Commitment
  {
    if !q.subscribed then Commitment(rows, q.amount, false)
    else if status != Some(Active) then
      var final := Round(BaseOf(q)) as real + OtherOf(q);
      Commitment(rows, final, final != Round(q.amount) as real)
    else
      var d := DebitCapped(rows, OrZero(q.scAppliedNgn) as real / fxRate, fxRate, Some(q.id));
      var service := Round(BaseOf(q) - OrZero(q.discountAmount) as real - d.appliedNgn as real);
      var final := Max(0, service) as real + OtherOf(q);
      Commitment(d.rows, final, final != Round(q.amount) as real)
  }

  class MembershipService {
    const ledger: ScLedgerService

    constructor (ledger: ScLedgerService)
      ensures this.ledger == ledger
    {
      this.ledger := ledger;
    }

    method Commit(q: Quote, status: Option<SubscriptionStatus>, fxRate: Rate)
      returns (finalAmount: real, adjusted: bool)
      modifies ledger
      ensures Commitment(ledger.rows, finalAmount, adjusted) == CommitBenefit(old(ledger.rows), q, status, fxRate)
    {
      hide Round, DebitCapped;
      if !q.subscribed {
        return q.amount, false;
      }
      var base, other, discount := BaseOf(q), OtherOf(q), OrZero(q.discountAmount);
      if status != Some(Active) {
        finalAmount := Round(base) as real + other;
        return finalAmount, finalAmount != Round(q.amount) as real;
      }
      var projectedUsd := OrZero(q.scAppliedNgn) as real / fxRate;
      var _, appliedNgn := ledger.DebitUsd(projectedUsd, fxRate, Some(q.id));
      finalAmount := Max(0, Round(base - discount as real - appliedNgn as real)) as real + other;
      adjusted := finalAmount != Round(q.amount) as real;
    }
  }

  // ---- preview ----

  lemma ScaleDown(a: real, p: real)
    requires 0.0 <= a && 0.0 <= p <= 100.0
    ensures 0.0 <= a * (p / 100.0) <= a
  {
    var f := p / 100.0;
    assert 0.0 <= f <= 1.0;
    assert a * f >= 0.0;
    assert a * (1.0 - f) >= 0.0;
  }

  lemma DiscountWithinFee(base: real, percent: real)
    requires 0.0 <= base && 0.0 <= percent <= 100.0
    ensures 0 <= Discount(base, percent) <= Round(base)
  {
    ScaleDown(base, percent);
    RoundMonotone(0.0, base * (percent / 100.0));
    RoundMonotone(base * (percent / 100.0), base);
  }

  /** Preview's arithmetic on a whole-naira fee: it over-collects nothing, and at most one naira on an exact half. */
  lemma PreviewBalances(base: int, plan: Plan, used: nat, zone: PricingZone, balanceUsd: real)
    requires base >= 0 && used < plan.eligiblePerMonth
    ensures var p := PreviewBenefit(Concierge, Some(plan), used, base as real, zone, balanceUsd).value;
            var credit := PreviewCredit(base as real - p.discountAmount as real, zone, balanceUsd, plan.fxRate);
            var collected := p.finalAmount + p.discountAmount + p.scAppliedNgn;
            && 0 <= p.discountAmount <= base && 0 <= p.scAppliedNgn <= base - p.discountAmount
            && collected == base + (if credit + 0.5 == Round(credit) as real then 1 else 0)
            && (zone == OtherLocation ==> p.scAppliedNgn == 0 && p.finalAmount == base - p.discountAmount)
  {
    hide Round;
    DiscountWithinFee(base as real, plan.discountPercent);
    RoundWhole(base);
    var discount := Discount(base as real, plan.discountPercent);
    var after := base - discount;
    var credit := PreviewCredit(after as real, zone, balanceUsd, plan.fxRate);
    RoundBetween(credit, 0, after);
    RoundBetween(after as real - credit, 0, after);
    RoundNegation(credit);
    RoundShift(-credit, after);
    assert Round(after as real - credit) == Round(-credit + after as real);
    if zone == OtherLocation {
      RoundWhole(0);
      RoundWhole(after);
    }
  }

  /** Exactly when a preview gives a benefit. */
  lemma PreviewGiven(tier: CaseTier, plan: Option<Plan>, used: nat, base: real, zone: PricingZone, balanceUsd: real)
    ensures PreviewBenefit(tier, plan, used, base, zone, balanceUsd).Some?
       <==> tier == Concierge && plan.Some? && used < plan.value.eligiblePerMonth
  {
  }

  /** What a preview amounts to, in terms of fee, plan, zone, balance and rate: the discount is the percentage to within
      half a naira; credit is taken outside other locations exactly from a positive balance, and comes within half a
      naira to the smaller of the balance and the discounted fee; and what is payable is the rest, likewise. */
  lemma PreviewExactly(plan: Plan, used: nat, base: real, zone: PricingZone, balanceUsd: real)
    requires Eligible(base, plan, used)
    ensures var p := PreviewBenefit(Concierge, Some(plan), used, base, zone, balanceUsd).value;
            var discounted, worth := base - p.discountAmount as real, balanceUsd * plan.fxRate;
            var smaller := if zone == OtherLocation || balanceUsd <= 0.0 then 0.0 else if worth < discounted then worth else discounted;
            && -0.5 <= p.discountAmount as real - base * (plan.discountPercent / 100.0) <= 0.5
            && (zone == OtherLocation || balanceUsd <= 0.0 ==> p.scAppliedNgn == 0)
            && (zone != OtherLocation && balanceUsd > 0.0 && smaller >= 0.5 ==> p.scAppliedNgn > 0)
            && -0.5 <= p.scAppliedNgn as real - smaller <= 0.5
            && -0.5 <= p.finalAmount as real - (discounted - smaller) <= 0.5
  {
    var p := PreviewBenefit(Concierge, Some(plan), used, base, zone, balanceUsd).value;
    var discounted, worth := base - p.discountAmount as real, balanceUsd * plan.fxRate;
    var credit := PreviewCredit(discounted, zone, balanceUsd, plan.fxRate);
    PreviewParts(plan, used, base, zone, balanceUsd);
    DiscountNearest(base, plan.discountPercent);
    PositiveScaled(balanceUsd, plan.fxRate);
    CreditExactly(discounted, zone, balanceUsd, plan.fxRate, worth);
    RestWithinHalf(discounted, credit);
    hide *;
  }

  lemma PreviewParts(plan: Plan, used: nat, base: real, zone: PricingZone, balanceUsd: real)
    requires Eligible(base, plan, used)
    ensures var p := PreviewBenefit(Concierge, Some(plan), used, base, zone, balanceUsd).value;
            var discounted := base - p.discountAmount as real;
            var credit := PreviewCredit(discounted, zone, balanceUsd, plan.fxRate);
            && p.discountAmount == Discount(base, plan.discountPercent)
            && p.scAppliedNgn == Round(credit) && p.finalAmount == Max(0, Round(discounted - credit))
  {
    hide Round, Discount, PreviewCredit;
  }

  lemma DiscountNearest(base: real, percent: Percent)
    requires base > 0.0
    ensures -0.5 <= Discount(base, percent) as real - base * (percent / 100.0) <= 0.5
    ensures base - Discount(base, percent) as real >= -0.5
  {
    var exact := base * (percent / 100.0);
    ScaleDown(base, percent);
    assert Discount(base, percent) == Round(exact);
    RoundNearest(exact);
    hide Round, Discount;
  }

  lemma RestWithinHalf(discounted: real, credit: real)
    requires discounted >= -0.5 && 0.0 <= credit && (credit <= discounted || credit == 0.0)
    ensures Round(0.0) == 0 && -0.5 <= Round(credit) as real - credit <= 0.5 && (credit >= 0.5 ==> Round(credit) > 0)
    ensures -0.5 <= Max(0, Round(discounted - credit)) as real - (discounted - credit) <= 0.5
  {
    RoundNearest(credit);
    RoundNearest(discounted - credit);
  }

  lemma CreditExactly(discounted: real, zone: PricingZone, balanceUsd: real, fxRate: Rate, worth: real)
    requires worth == balanceUsd * fxRate && (worth > 0.0 <==> balanceUsd > 0.0)
    ensures PreviewCredit(discounted, zone, balanceUsd, fxRate)
         == if zone == OtherLocation || balanceUsd <= 0.0 || discounted <= 0.0 then 0.0
            else if worth < discounted then worth else discounted
  {
  }

  /** The priced zones are alike: only a location outside them changes a preview. */
  lemma PricedZonesAlike(tier: CaseTier, plan: Option<Plan>, used: nat, base: real, balanceUsd: real, x: PricingZone, y: PricingZone)
    requires x != OtherLocation && y != OtherLocation
    ensures PreviewBenefit(tier, plan, used, base, x, balanceUsd) == PreviewBenefit(tier, plan, used, base, y, balanceUsd)
  {
  }

  lemma RoundWhole(n: int)
    ensures Round(n as real) == n
  {
  }

  lemma RoundBetween(x: real, lo: int, hi: int)
    requires lo as real <= x <= hi as real
    ensures lo <= Round(x) <= hi
  {
  }

  // ---- commit ----

  /** What the ledger took for one commit. */
  function AppliedNgn(before: seq<ScRow>, after: seq<ScRow>): int {
    if |after| > |before| && after[|after| - 1].amountNgn.Some? then after[|after| - 1].amountNgn.value else 0
  }

  predicate Eligible(base: real, plan: Plan, used: nat) {
    base > 0.0 && used < plan.eligiblePerMonth
  }

  /** A quote as createQuote stores it for an eligible member. */
  function BenefitedQuote(id: QuoteId, base: real, other: real, plan: Plan, used: nat, zone: PricingZone, balanceUsd: real)
    : Quote
    requires Eligible(base, plan, used)
  {
    var p := PreviewBenefit(Concierge, Some(plan), used, base, zone, balanceUsd).value;
    Quote(id, p.finalAmount as real + other, true, Some(base), Some(other), Some(p.discountAmount), Some(p.scAppliedNgn))
  }

  /** Such quotes are exactly the ones createQuote stores with a benefit. */
  lemma CreatedQuoteIsBenefited(id: QuoteId, lines: seq<QuoteLine>, tier: CaseTier, plan: Option<Plan>, used: nat,
                                zone: PricingZone, balanceUsd: real)
    ensures var q := CreateQuote(id, lines, tier, plan, used, zone, balanceUsd);
            && (q.subscribed <==> tier == Concierge && plan.Some? && Eligible(SumLines(lines, true), plan.value, used))
            && (q.subscribed ==>
                  q == BenefitedQuote(id, SumLines(lines, true), SumLines(lines, false), plan.value, used, zone, balanceUsd))
            && (!q.subscribed ==> q.amount == SumLines(lines, true) + SumLines(lines, false) && q.discountAmount.None?)
  {
    hide Round, Discount, PreviewCredit;
  }

  /** A line outside the service fee is added on top and touches nothing else; a service-fee line is what the benefit
      works on; a quote without lines is for nothing. */
  lemma LineAdded(id: QuoteId, lines: seq<QuoteLine>, line: QuoteLine, tier: CaseTier, plan: Option<Plan>, used: nat,
                  zone: PricingZone, balanceUsd: real)
    ensures CreateQuote(id, [], tier, plan, used, zone, balanceUsd) == Quote(id, 0.0, false, Some(0.0), Some(0.0), None, None)
    ensures var q, next := CreateQuote(id, lines, tier, plan, used, zone, balanceUsd),
                           CreateQuote(id, lines + [line], tier, plan, used, zone, balanceUsd);
            if line.category == ServiceFee then BaseOf(next) == BaseOf(q) + line.amount && OtherOf(next) == OtherOf(q)
            else next == q.(amount := q.amount + line.amount, nonServiceFee := Some(OtherOf(q) + line.amount))
  {
    assert (lines + [line])[..|lines|] == lines;
    hide PreviewBenefit;
  }

  /** The debit of a commit, in naira: never above what was previewed, and all of it when the balance suffices. */
  lemma DebitWithinPreview(rows: seq<ScRow>, previewed: int, fxRate: Rate, q: QuoteId)
    requires previewed >= 0
    ensures var d := DebitCapped(rows, previewed as real / fxRate, fxRate, Some(q));
            && 0 <= d.appliedNgn <= previewed
            && (previewed as real <= Balance(rows) * fxRate ==> d.appliedNgn == previewed)
            && AppliedNgn(rows, d.rows) == d.appliedNgn
  {
    hide Balance;
    var requested := previewed as real / fxRate;
    var d := DebitCapped(rows, requested, fxRate, Some(q));
    assert requested * fxRate == previewed as real;
    if d.rows != rows {
      ScaledAtMost(d.appliedUsd, requested, fxRate);
      hide Round;
      RoundBetween(d.appliedUsd * fxRate, 0, previewed);
      if previewed as real <= Balance(rows) * fxRate {
        ScaledBelow(requested, Balance(rows), fxRate);
        RoundWhole(previewed);
      }
    } else {
      assert AppliedNgn(rows, rows) == 0;
      NothingPreviewed(requested, previewed, fxRate, Balance(rows));
    }
  }

  lemma ScaledAtMost(a: real, b: real, f: real)
    requires 0.0 <= a <= b && f > 0.0
    ensures 0.0 <= a * f <= b * f
  {
    assert (b - a) * f >= 0.0;
  }

  lemma ScaledBelow(a: real, b: real, f: real)
    requires a * f <= b * f && f > 0.0
    ensures a <= b
  {
    assert a > b ==> (a - b) * f > 0.0;
  }

  lemma NothingPreviewed(requested: real, previewed: int, f: real, balance: real)
    requires requested * f == previewed as real && f > 0.0 && previewed >= 0
    requires requested <= 0.0 || balance <= 0.0
    ensures previewed as real <= balance * f ==> previewed == 0
  {
    if requested <= 0.0 {
      assert requested * f <= 0.0;
    } else {
      assert balance * f <= 0.0;
    }
  }

  /** The service fee committed by an active member, with the discount and the credit debited, adds up exactly;
      the zero floor never clips. */
  lemma CommitConserves(rows: seq<ScRow>, id: QuoteId, base: real, other: real, plan: Plan, used: nat,
                        zone: PricingZone, balanceUsd: real)
    requires Eligible(base, plan, used)
    ensures var q := BenefitedQuote(id, base, other, plan, used, zone, balanceUsd);
            var c := CommitBenefit(rows, q, Some(Active), plan.fxRate);
            var applied := AppliedNgn(rows, c.rows);
            && c.finalAmount + q.discountAmount.value as real + applied as real == Round(base) as real + other
            && 0 <= applied <= q.scAppliedNgn.value
            && Round(base - q.discountAmount.value as real - applied as real) >= 0
  {
    hide DebitCapped, Balance, AppliedNgn;
    var q := BenefitedQuote(id, base, other, plan, used, zone, balanceUsd);
    var discount, previewed := q.discountAmount.value, q.scAppliedNgn.value;
    PreviewedCreditFits(base, plan, zone, balanceUsd);
    DebitWithinPreview(rows, previewed, plan.fxRate, q.id);
    var applied := DebitCapped(rows, previewed as real / plan.fxRate, plan.fxRate, Some(q.id)).appliedNgn;
    assert base - discount as real - applied as real == base + (-discount - applied) as real;
    RoundShift(base, -discount - applied);
  }

  /** The rounded credit never exceeds the rounded fee after discount. */
  lemma PreviewedCreditFits(base: real, plan: Plan, zone: PricingZone, balanceUsd: real)
    requires base > 0.0
    ensures var discount := Discount(base, plan.discountPercent);
            var after := base - discount as real;
            var credit := PreviewCredit(after, zone, balanceUsd, plan.fxRate);
            && 0 <= Round(credit) <= Round(base) - discount
            && Round(after) == Round(base) - discount
  {
    hide Round, Discount;
    DiscountWithinFee(base, plan.discountPercent);
    var discount := Discount(base, plan.discountPercent);
    RoundShift(base, -discount);
    var after := base - discount as real;
    assert after == base + (-discount) as real;
    var credit := PreviewCredit(after, zone, balanceUsd, plan.fxRate);
    RoundWhole(0);
    RoundMonotone(0.0, credit);
    if credit > 0.0 {
      RoundMonotone(credit, after);
    }
  }

  lemma RoundMonotone(x: real, y: real)
    requires x <= y
    ensures Round(x) <= Round(y)
  {
  }

  /** A membership that lapsed by acceptance debits nothing and is charged the full fee. */
  lemma LapsedPaysInFull(rows: seq<ScRow>, id: QuoteId, status: Option<SubscriptionStatus>, base: real, other: real,
                         plan: Plan, used: nat, zone: PricingZone, balanceUsd: real)
    requires Eligible(base, plan, used) && status != Some(Active)
    ensures var c := CommitBenefit(rows, BenefitedQuote(id, base, other, plan, used, zone, balanceUsd), status, plan.fxRate);
            c.rows == rows && c.finalAmount == Round(base) as real + other
  {
  }

  /** However the balance moved: the charge is at most one naira below the quote and never above the full fee. */
  lemma CommitWithinQuote(rows: seq<ScRow>, id: QuoteId, base: real, other: real, plan: Plan, used: nat,
                          zone: PricingZone, balanceUsd: real)
    requires Eligible(base, plan, used)
    ensures var q := BenefitedQuote(id, base, other, plan, used, zone, balanceUsd);
            q.amount - 1.0 <= CommitBenefit(rows, q, Some(Active), plan.fxRate).finalAmount <= Round(base) as real + other
  {
    CommitConserves(rows, id, base, other, plan, used, zone, balanceUsd);
    PreviewedCreditFits(base, plan, zone, balanceUsd);
    DiscountWithinFee(base, plan.discountPercent);
    QuotedParts(id, base, other, plan, used, zone, balanceUsd);
  }

  /** The quoted service fee against its rounded parts. */
  lemma QuotedParts(id: QuoteId, base: real, other: real, plan: Plan, used: nat, zone: PricingZone, balanceUsd: real)
    requires Eligible(base, plan, used)
    ensures var q := BenefitedQuote(id, base, other, plan, used, zone, balanceUsd);
            q.amount - 1.0 <= (Round(base) - q.discountAmount.value - q.scAppliedNgn.value) as real + other
  {
    hide Round, PreviewCredit, Discount;
    PreviewedCreditFits(base, plan, zone, balanceUsd);
    var after := base - BenefitedQuote(id, base, other, plan, used, zone, balanceUsd).discountAmount.value as real;
    var credit := PreviewCredit(after, zone, balanceUsd, plan.fxRate);
    RoundedParts(after, credit);
  }

  lemma RoundedParts(x: real, y: real)
    ensures Round(x - y) - 1 <= Round(x) - Round(y)
  {
    RoundNearest(x);
    RoundNearest(y);
    RoundNearest(x - y);
  }

  /** On a whole-naira fee, with the balance still covering the preview: the quoted amount is charged,
      or one naira less exactly when the previewed credit lay on a half. */
  lemma UnchangedBalanceChargesQuote(rows: seq<ScRow>, id: QuoteId, base: int, other: real, plan: Plan, used: nat,
                                     zone: PricingZone, balanceUsd: real)
    requires Eligible(base as real, plan, used)
    requires var q := BenefitedQuote(id, base as real, other, plan, used, zone, balanceUsd);
             q.scAppliedNgn.value as real <= Balance(rows) * plan.fxRate
    ensures var q := BenefitedQuote(id, base as real, other, plan, used, zone, balanceUsd);
            var credit := PreviewCredit(base as real - q.discountAmount.value as real, zone, balanceUsd, plan.fxRate);
            CommitBenefit(rows, q, Some(Active), plan.fxRate).finalAmount
            == q.amount - if credit + 0.5 == Round(credit) as real then 1.0 else 0.0
  {
    hide DebitCapped, Balance, AppliedNgn, Round, PreviewCredit;
    var q := BenefitedQuote(id, base as real, other, plan, used, zone, balanceUsd);
    CommitConserves(rows, id, base as real, other, plan, used, zone, balanceUsd);
    DebitWithinPreview(rows, q.scAppliedNgn.value, plan.fxRate, q.id);
    PreviewBalances(base, plan, used, zone, balanceUsd);
    RoundWhole(base);
  }

  // ---- the adjusted flag ----

  predicate Whole(x: real) {
    x.Floor as real == x
  }

  lemma WholeNumber(n: int)
    ensures Whole(n as real)
  {
  }

  /** What a commit charges is a whole service fee and the other lines. */
  lemma ChargeOf(rows: seq<ScRow>, q: Quote, status: Option<SubscriptionStatus>, fxRate: Rate) returns (service: int)
    requires q.subscribed
    ensures var c := CommitBenefit(rows, q, status, fxRate);
            c.finalAmount == service as real + OtherOf(q) && c.adjusted == (c.finalAmount != Round(q.amount) as real)
  {
    hide DebitCapped, Round;
    if status != Some(Active) {
      service := Round(BaseOf(q));
    } else {
      var d := DebitCapped(rows, OrZero(q.scAppliedNgn) as real / fxRate, fxRate, Some(q.id));
      service := Max(0, Round(BaseOf(q) - OrZero(q.discountAmount) as real - d.appliedNgn as real));
    }
  }

  lemma FlagExactly(charged: int, quoted: int, other: real)
    ensures charged as real + other != Round(quoted as real + other) as real <==> charged != quoted || !Whole(other)
  {
    hide Round;
    if Whole(other) {
      var n := other.Floor;
      assert quoted as real + other == (quoted + n) as real;
      RoundWhole(quoted + n);
    } else {
      WholeNumber(Round(quoted as real + other) - charged);
      hide Whole;
    }
  }

  /** The naira of credit an acceptance takes for a preview, from the balance it meets. */
  function Taken(previewed: int, balanceUsd: real, fxRate: Rate): int {
    if previewed <= 0 || balanceUsd <= 0.0 then 0 else Round(Min(previewed as real, balanceUsd * fxRate))
  }

  lemma NairaIsRounded(usd: real, fxRate: Rate)
    ensures ToNaira(usd, fxRate) == Round(usd * fxRate)
  {
  }

  lemma DebitInNaira(rows: seq<ScRow>, usd: real, fxRate: Rate, id: QuoteId, least: real)
    requires least == Min(usd, Balance(rows))
    ensures DebitCapped(rows, usd, fxRate, Some(id)).appliedNgn
         == if usd <= 0.0 || Balance(rows) <= 0.0 then 0 else Round(least * fxRate)
  {
    NairaIsRounded(least, fxRate);
    hide Balance, Round, ToNaira;
  }

  lemma AppliedIsTaken(rows: seq<ScRow>, previewed: int, fxRate: Rate, id: QuoteId)
    ensures DebitCapped(rows, previewed as real / fxRate, fxRate, Some(id)).appliedNgn == Taken(previewed, Balance(rows), fxRate)
  {
    var usd, balance := previewed as real / fxRate, Balance(rows);
    var least, taken := Min(usd, balance), Min(previewed as real, balance * fxRate);
    PreviewedScaled(previewed, fxRate);
    MinScaled(previewed as real, usd, balance, fxRate, least);
    DebitInNaira(rows, usd, fxRate, id, least);
    TakenIs(previewed, balance, fxRate, taken);
    hide *;
  }

  lemma TakenIs(previewed: int, balanceUsd: real, fxRate: Rate, taken: real)
    requires taken == Min(previewed as real, balanceUsd * fxRate)
    ensures Taken(previewed, balanceUsd, fxRate) == if previewed <= 0 || balanceUsd <= 0.0 then 0 else Round(taken)
  {
  }

  lemma PreviewedScaled(previewed: int, fxRate: Rate)
    ensures (previewed as real / fxRate) * fxRate == previewed as real
    ensures previewed as real / fxRate > 0.0 <==> previewed > 0
  {
    PositiveScaled(previewed as real / fxRate, fxRate);
  }

  lemma PositiveScaled(x: real, f: Rate)
    ensures x * f > 0.0 <==> x > 0.0
  {
    if x > 0.0 {
      assert x * f > 0.0;
    } else {
      assert (-x) * f >= 0.0;
    }
  }

  lemma MinScaled(amount: real, usd: real, balance: real, f: Rate, least: real)
    requires usd * f == amount && least == Min(usd, balance)
    ensures least * f == Min(amount, balance * f)
  {
    if usd < balance {
      assert (balance - usd) * f > 0.0;
    } else {
      assert (usd - balance) * f >= 0.0;
    }
  }

  /** Whether the quoted service fee is still what acceptance charges, from the quote, the standing of the
      subscription and the balance: an active member's credit must come to what the quote left for it, and
      without a membership the quote must have been for the full fee. */
  predicate QuoteStands(q: Quote, quoted: int, status: Option<SubscriptionStatus>, balanceUsd: real, fxRate: Rate) {
    if status == Some(Active) then
      Taken(OrZero(q.scAppliedNgn), balanceUsd, fxRate) == Round(BaseOf(q)) - OrZero(q.discountAmount) - quoted
    else Round(BaseOf(q)) == quoted
  }

  /** The quoted service fee of a benefited quote, in whole naira. */
  function QuotedService(q: Quote): int {
    (q.amount - OtherOf(q)).Floor
  }

  /** Acceptance charges the quoted amount exactly when the quote stands. */
  lemma ChargeEqualsQuote(rows: seq<ScRow>, id: QuoteId, status: Option<SubscriptionStatus>, base: real, other: real,
                          plan: Plan, used: nat, zone: PricingZone, balanceUsd: real)
    requires Eligible(base, plan, used)
    ensures var q := BenefitedQuote(id, base, other, plan, used, zone, balanceUsd);
            && q.amount == QuotedService(q) as real + other
            && (CommitBenefit(rows, q, status, plan.fxRate).finalAmount == q.amount
                <==> QuoteStands(q, QuotedService(q), status, Balance(rows), plan.fxRate))
  {
    var q := BenefitedQuote(id, base, other, plan, used, zone, balanceUsd);
    var quoted := PreviewBenefit(Concierge, Some(plan), used, base, zone, balanceUsd).value.finalAmount;
    assert q.amount - other == quoted as real;
    if status == Some(Active) {
      AppliedIsTaken(rows, OrZero(q.scAppliedNgn), plan.fxRate, id);
      CommitConserves(rows, id, base, other, plan, used, zone, balanceUsd);
      AppliedOf(rows, q, plan.fxRate);
      hide CommitBenefit, PreviewBenefit, Round, Balance, Taken, AppliedNgn, DebitCapped;
    } else {
      hide PreviewBenefit, Round, DebitCapped;
    }
  }

  /** The credit a commit takes is the credit its debit applies. */
  lemma AppliedOf(rows: seq<ScRow>, q: Quote, fxRate: Rate)
    requires q.subscribed && OrZero(q.scAppliedNgn) >= 0
    ensures AppliedNgn(rows, CommitBenefit(rows, q, Some(Active), fxRate).rows)
         == DebitCapped(rows, OrZero(q.scAppliedNgn) as real / fxRate, fxRate, Some(q.id)).appliedNgn
  {
    hide Round, Balance;
    DebitWithinPreview(rows, OrZero(q.scAppliedNgn), fxRate, q.id);
  }

  /** The flag goes up exactly when the quote no longer stands or the other lines are not a whole number of naira. */
  lemma AdjustedExactly(rows: seq<ScRow>, id: QuoteId, status: Option<SubscriptionStatus>, base: real, other: real,
                        plan: Plan, used: nat, zone: PricingZone, balanceUsd: real)
    requires Eligible(base, plan, used)
    ensures var q := BenefitedQuote(id, base, other, plan, used, zone, balanceUsd);
            CommitBenefit(rows, q, status, plan.fxRate).adjusted
            <==> !Whole(other) || !QuoteStands(q, QuotedService(q), status, Balance(rows), plan.fxRate)
  {
    var q := BenefitedQuote(id, base, other, plan, used, zone, balanceUsd);
    assert OtherOf(q) == other && q.subscribed;
    hide CommitBenefit, BenefitedQuote, Round, Whole, QuoteStands, Balance, QuotedService;
    ChargeEqualsQuote(rows, id, status, base, other, plan, used, zone, balanceUsd);
    var service := ChargeOf(rows, q, status, plan.fxRate);
    FlagExactly(service, QuotedService(q), other);
  }

  /** So the flag tells the truth exactly when the other lines are whole or the quote no longer stands: with a
      fraction in them it is always up, and wrong whenever the quote stands. */
  lemma FlagIsTrue(rows: seq<ScRow>, id: QuoteId, status: Option<SubscriptionStatus>, base: real, other: real,
                   plan: Plan, used: nat, zone: PricingZone, balanceUsd: real)
    requires Eligible(base, plan, used)
    ensures var q := BenefitedQuote(id, base, other, plan, used, zone, balanceUsd);
            var c := CommitBenefit(rows, q, status, plan.fxRate);
            && (Whole(other) ==> (c.adjusted <==> c.finalAmount != q.amount))
            && (!Whole(other) ==> c.adjusted)
            && ((c.adjusted <==> c.finalAmount != q.amount)
                <==> Whole(other) || !QuoteStands(q, QuotedService(q), status, Balance(rows), plan.fxRate))
  {
    hide CommitBenefit, BenefitedQuote, Round, Whole, QuoteStands, Balance, QuotedService;
    ChargeEqualsQuote(rows, id, status, base, other, plan, used, zone, balanceUsd);
    AdjustedExactly(rows, id, status, base, other, plan, used, zone, balanceUsd);
  }

  /** When the quoted amount is a whole service fee and the other lines, an acceptance that rewrites the stored
      amount only when the flag is up still stores what it charges. */
  lemma StoredAmountIsCharged(rows: seq<ScRow>, q: Quote, status: Option<SubscriptionStatus>, fxRate: Rate)
    requires q.subscribed ==> Whole(q.amount - OtherOf(q))
    ensures var c := CommitBenefit(rows, q, status, fxRate);
            && (!c.adjusted ==> c.finalAmount == q.amount)
            && (!q.subscribed ==> !c.adjusted && c.rows == rows)
  {
    if q.subscribed {
      hide CommitBenefit, Round;
      var service := ChargeOf(rows, q, status, fxRate);
      var quoted := (q.amount - OtherOf(q)).Floor;
      assert q.amount == quoted as real + OtherOf(q);
      hide Whole;
      FlagExactly(service, quoted, OtherOf(q));
    }
  }

  /** Every quote that createQuote stores is made so. */
  lemma CreatedAmountIsWhole(id: QuoteId, lines: seq<QuoteLine>, tier: CaseTier, plan: Option<Plan>, used: nat,
                             zone: PricingZone, balanceUsd: real)
    ensures var q := CreateQuote(id, lines, tier, plan, used, zone, balanceUsd);
            q.subscribed ==> Whole(q.amount - OtherOf(q))
  {
    hide PreviewBenefit, SumLines;
    var q := CreateQuote(id, lines, tier, plan, used, zone, balanceUsd);
    if q.subscribed {
      var p := PreviewBenefit(tier, plan, used, SumLines(lines, true), zone, balanceUsd).value;
      assert q.amount - OtherOf(q) == p.finalAmount as real;
    }
  }

  /** The flag can be raised on an unchanged charge: a fee of 500, other lines of 0.50, and no credit. */
  lemma FlaggedWithoutAdjustment()
    ensures var lines := [QuoteLine(ServiceFee, 500.0), QuoteLine(ExternalCost, 0.5)];
            var plan := Plan(0.0, 1, 1000.0);
            var q := CreateQuote(0, lines, Concierge, Some(plan), 0, Lagos, 0.0);
            var c := CommitBenefit([], q, Some(Active), plan.fxRate);
            q.amount == 500.5 && c.finalAmount == q.amount && c.adjusted
  {
    var lines := [QuoteLine(ServiceFee, 500.0), QuoteLine(ExternalCost, 0.5)];
    assert lines[..1] == [QuoteLine(ServiceFee, 500.0)] && lines[..1][..0] == [];
    assert SumLines(lines[..1], true) == 500.0 && SumLines(lines[..1], false) == 0.0;
    assert SumLines(lines, true) == 500.0 && SumLines(lines, false) == 0.5;
    hide SumLines;
    var plan := Plan(0.0, 1, 1000.0);
    assert PreviewBenefit(Concierge, Some(plan), 0, 500.0, Lagos, 0.0) == Some(Preview(0, 0, 500));
    hide PreviewBenefit;
    var q := CreateQuote(0, lines, Concierge, Some(plan), 0, Lagos, 0.0);
    assert q == Quote(0, 500.5, true, Some(500.0), Some(0.5), Some(0), Some(0));
    assert DebitCapped([], 0.0, 1000.0, Some(0)) == Debited([], 0.0, 0);
  }
}
