/** Subscription invoices, activation, renewal and the monthly allowance
    (backend/src/concierge/subscription-billing.service.ts, membership.service.ts, concierge.service.ts). */
module SubscriptionBilling {
  import opened Wrappers
  import opened ScLedger
  import opened Membership

  datatype InvoiceStatus = Unpaid | Paid | Failed

  /** `renewal` records which of the two callers raised the invoice: the sweep, or a sign-up attempt. */
  datatype PeriodInvoice = PeriodInvoice(periodStart: Time, periodEnd: Time, amountKobo: int, status: InvoiceStatus, renewal: bool)

  /** A subscription row with its invoices, its credit ledger and the creation times of its discounted
      quotes; `current` is the invoice whose period set renewsAt. */
  datatype Subscription = Subscription(
    status: SubscriptionStatus,
    startedAt: Time,
    renewsAt: Option<Time>,
    amountKobo: int,
    invoices: seq<PeriodInvoice>,
    current: nat,
    rows: seq<ScRow>,
    discounted: seq<Time>)

  datatype BillingError = AlreadySubscribed | NotPending | ProviderFailed | InvoiceNotFound | AmountMismatch | NothingToCancel

  datatype BillingOutcome = BillingOutcome(next: Subscription, error: Option<BillingError>)

  function NewSubscription(amountKobo: int, now: Time): Subscription {
    Subscription(Pending, now, None, amountKobo, [], 0, [], [])
  }

  /** The provider is asked first; a refusal raises no invoice. */
  function InitiatePeriod(s: Subscription, now: Time, renewal: bool, providerOk: bool): BillingOutcome {
    if !providerOk then BillingOutcome(s, Some(ProviderFailed))
    else
      var invoice := PeriodInvoice(now, now + BILLING_PERIOD, s.amountKobo, Unpaid, renewal);
      BillingOutcome(s.(invoices := s.invoices + [invoice]), None)
  }

  /** Subscribing resumes a pending row with a fresh checkout. */
  function SignUp(s: Subscription, now: Time, providerOk: bool): BillingOutcome {
    if s.status == Active then BillingOutcome(s, Some(AlreadySubscribed))
    else if s.status != Pending then BillingOutcome(s, Some(NotPending))
    else InitiatePeriod(s, now, false, providerOk)
  }

  function VerifiedPayment(s: Subscription, i: nat, kobo: int, grantUsd: real): BillingOutcome {
    if i >= |s.invoices| then BillingOutcome(s, Some(InvoiceNotFound))
    else if s.invoices[i].amountKobo != kobo then BillingOutcome(s, Some(AmountMismatch))
    else if s.invoices[i].status == Paid then BillingOutcome(s, None)
    else
      var paid := s.(invoices := s.invoices[i := s.invoices[i].(status := Paid)]);
      var activated :=
        if s.status == Pending then paid.(status := Active, renewsAt := Some(s.invoices[i].periodEnd), current := i) else paid;
      BillingOutcome(activated.(rows := Granted(s.rows, grantUsd)), None)
  }

  function FailedPayment(s: Subscription, i: nat): BillingOutcome {
    if i >= |s.invoices| then BillingOutcome(s, Some(InvoiceNotFound))
    else if s.invoices[i].status == Paid || s.invoices[i].status == Failed then BillingOutcome(s, None)
    else
      var failed := s.(invoices := s.invoices[i := s.invoices[i].(status := Failed)]);
      BillingOutcome(if s.status == Pending then failed.(status := Cancelled) else failed, None)
  }

  predicate RenewalDue(s: Subscription, now: Time) {
    s.status == Active && s.renewsAt.Some? && s.renewsAt.value <= now
  }

  predicate NewestUnpaid(s: Subscription) {
    |s.invoices| > 0 && s.invoices[|s.invoices| - 1].status != Paid
  }

  /** One due subscription: lapse it when its newest invoice was never paid, otherwise bill the next period. */
  function SweepOne(s: Subscription, now: Time, providerOk: bool): BillingOutcome {
    if !RenewalDue(s, now) then BillingOutcome(s, None)
    else if NewestUnpaid(s) then BillingOutcome(s.(status := Expired), None)
    else
      var o := InitiatePeriod(s, now, true, providerOk);
      if o.error.Some? then o
      else BillingOutcome(o.next.(renewsAt := Some(now + BILLING_PERIOD), current := |s.invoices|), None)
  }

  function Cancel(s: Subscription): BillingOutcome {
    if s.status == Active || s.status == Pending then BillingOutcome(s.(status := Cancelled), None)
    else BillingOutcome(s, Some(NothingToCancel))
  }

  function PeriodStart(s: Subscription): Time {
    PeriodStartOf(s.startedAt, s.renewsAt)
  }

  function CountSince(times: seq<Time>, since: Time): nat {
    if times == [] then 0
    else CountSince(times[..|times| - 1], since) + if times[|times| - 1] >= since then 1 else 0
  }

  /** Discounted quotes since the current period began. */
  function UsedThisPeriod(s: Subscription): nat {
    CountSince(s.discounted, PeriodStart(s))
  }

  /** A quote is discounted, and counts, while an active subscription has allowance left. */
  function QuoteDiscounted(s: Subscription, now: Time, monthlyLimit: nat): BillingOutcome {
    if s.status == Active && UsedThisPeriod(s) < monthlyLimit then BillingOutcome(s.(discounted := s.discounted + [now]), None)
    else BillingOutcome(s, None)
  }

  // ---- the sweep over the table ----

  /** Rows a finished sweep moved into a status, or gave a new invoice. */
  function Lapsed(before: seq<Subscription>, after: seq<Subscription>): nat
    requires |before| == |after|
  {
    if before == [] then 0
    else
      var n := |before| - 1;
      Lapsed(before[..n], after[..n]) + if before[n].status != Expired && after[n].status == Expired then 1 else 0
  }

  function Billed(before: seq<Subscription>, after: seq<Subscription>): nat
    requires |before| == |after|
  {
    if before == [] then 0
    else
      var n := |before| - 1;
      Billed(before[..n], after[..n]) + if |after[n].invoices| > |before[n].invoices| then 1 else 0
  }

  lemma CountsNext(before: seq<Subscription>, after: seq<Subscription>, i: nat)
    requires |before| == |after| && i < |before|
    ensures Lapsed(before[..i + 1], after[..i + 1])
         == Lapsed(before[..i], after[..i]) + if before[i].status != Expired && after[i].status == Expired then 1 else 0
    ensures Billed(before[..i + 1], after[..i + 1])
         == Billed(before[..i], after[..i]) + if |after[i].invoices| > |before[i].invoices| then 1 else 0
  {
    assert before[..i + 1][..i] == before[..i] && after[..i + 1][..i] == after[..i];
  }

  lemma CountsNone(before: seq<Subscription>, after: seq<Subscription>)
    ensures Lapsed(before[..0], after[..0]) == 0 && Billed(before[..0], after[..0]) == 0
  {
  }

  /** The result of a call on one row, as a result of the table. */
  predicate RowUpdated(before: seq<Subscription>, after: seq<Subscription>, i: nat, o: BillingOutcome, error: Option<BillingError>)
    requires i < |before|
  {
    after == before[i := o.next] && error == o.error
  }

  class BillingDesk {
    var subscriptions: seq<Subscription>

    constructor ()
      ensures subscriptions == []
    {
      subscriptions := [];
    }

    /** Signing up resumes the pending row the query found, or opens a new one; a refused checkout leaves that row
        behind. */
    method Subscribe(existing: Option<nat>, amountKobo: int, now: Time, providerOk: bool) returns (error: Option<BillingError>)
      requires existing.Some? ==> existing.value < |subscriptions| && subscriptions[existing.value].status in {Pending, Active}
      modifies this
      ensures existing.Some? ==>
                RowUpdated(old(subscriptions), subscriptions, existing.value,
                           SignUp(old(subscriptions)[existing.value], now, providerOk), error)
      ensures existing.None? ==>
                RowUpdated(old(subscriptions) + [NewSubscription(amountKobo, now)], subscriptions, |old(subscriptions)|,
                           SignUp(NewSubscription(amountKobo, now), now, providerOk), error)
    {
      var i := |subscriptions|;
      if existing.Some? {
        i := existing.value;
        if subscriptions[i].status == Active {
          return Some(AlreadySubscribed);
        }
      } else {
        subscriptions := subscriptions + [NewSubscription(amountKobo, now)];
      }
      if !providerOk {
        return Some(ProviderFailed);
      }
      var subscription := subscriptions[i];
      var invoice := PeriodInvoice(now, now + BILLING_PERIOD, subscription.amountKobo, Unpaid, false);
      subscriptions := subscriptions[i := subscription.(invoices := subscription.invoices + [invoice])];
      return None;
    }

    method HandleVerified(i: nat, n: nat, kobo: int, grantUsd: real) returns (error: Option<BillingError>)
      requires i < |subscriptions|
      modifies this
      ensures i < |old(subscriptions)|
      ensures RowUpdated(old(subscriptions), subscriptions, i, VerifiedPayment(old(subscriptions)[i], n, kobo, grantUsd), error)
    {
      var subscription := subscriptions[i];
      if n >= |subscription.invoices| {
        return Some(InvoiceNotFound);
      }
      var invoice := subscription.invoices[n];
      if invoice.amountKobo != kobo {
        return Some(AmountMismatch);
      }
      if invoice.status == Paid {
        return None;
      }
      subscription := subscription.(invoices := subscription.invoices[n := invoice.(status := Paid)]);
      if subscription.status == Pending {
        subscription := subscription.(status := Active, renewsAt := Some(invoice.periodEnd), current := n);
      }
      subscription := subscription.(rows := Granted(subscription.rows, grantUsd));
      subscriptions := subscriptions[i := subscription];
      return None;
    }

    method HandleFailed(i: nat, n: nat) returns (error: Option<BillingError>)
      requires i < |subscriptions|
      modifies this
      ensures i < |old(subscriptions)|
      ensures RowUpdated(old(subscriptions), subscriptions, i, FailedPayment(old(subscriptions)[i], n), error)
    {
      var subscription := subscriptions[i];
      if n >= |subscription.invoices| {
        return Some(InvoiceNotFound);
      }
      var invoice := subscription.invoices[n];
      if invoice.status == Paid || invoice.status == Failed {
        return None;
      }
      subscription := subscription.(invoices := subscription.invoices[n := invoice.(status := Failed)]);
      if subscription.status == Pending {
        subscription := subscription.(status := Cancelled);
      }
      subscriptions := subscriptions[i := subscription];
      return None;
    }

    method CancelRow(i: nat) returns (error: Option<BillingError>)
      requires i < |subscriptions|
      modifies this
      ensures i < |old(subscriptions)| && RowUpdated(old(subscriptions), subscriptions, i, Cancel(old(subscriptions)[i]), error)
    {
      if subscriptions[i].status != Active && subscriptions[i].status != Pending {
        return Some(NothingToCancel);
      }
      subscriptions := subscriptions[i := subscriptions[i].(status := Cancelled)];
      return None;
    }

    /** A provider failure stops the sweep where it stands: rows before it are done, the rest untouched. */
    method RunBillingSweep(now: Time, provider: seq<bool>) returns (billed: nat, lapsed: nat, stop: nat)
      requires |provider| == |subscriptions|
      modifies this
      ensures |subscriptions| == |old(subscriptions)| && stop <= |subscriptions|
      ensures forall i :: 0 <= i < stop ==>
                var o := SweepOne(old(subscriptions)[i], now, provider[i]);
                subscriptions[i] == o.next && o.error.None?
      ensures forall i :: stop <= i < |subscriptions| ==> subscriptions[i] == old(subscriptions)[i]
      ensures stop < |subscriptions| ==> SweepOne(old(subscriptions)[stop], now, provider[stop]).error == Some(ProviderFailed)
      ensures lapsed == Lapsed(old(subscriptions), subscriptions) && billed == Billed(old(subscriptions), subscriptions)
    {
      hide Lapsed, Billed;
      ghost var before := subscriptions;
      billed, lapsed := 0, 0;
      CountsNone(before, subscriptions);
      var i := 0;
      while i < |subscriptions|
        invariant 0 <= i <= |subscriptions| == |before|
        invariant forall j :: 0 <= j < i ==>
                    var o := SweepOne(before[j], now, provider[j]);
                    subscriptions[j] == o.next && o.error.None?
        invariant forall j :: i <= j < |subscriptions| ==> subscriptions[j] == before[j]
        invariant lapsed == Lapsed(before[..i], subscriptions[..i]) && billed == Billed(before[..i], subscriptions[..i])
      {
        ghost var done := subscriptions[..i];
        var subscription := subscriptions[i];
        if RenewalDue(subscription, now) {
          if NewestUnpaid(subscription) {
            subscriptions := subscriptions[i := subscription.(status := Expired)];
            lapsed := lapsed + 1;
          } else {
            if !provider[i] {
              CountsUntouched(before, subscriptions, i);
              return billed, lapsed, i;
            }
            var invoice := PeriodInvoice(now, now + BILLING_PERIOD, subscription.amountKobo, Unpaid, true);
            subscription := subscription.(invoices := subscription.invoices + [invoice]);
            subscription := subscription.(renewsAt := Some(invoice.periodEnd), current := |subscription.invoices| - 1);
            subscriptions := subscriptions[i := subscription];
            billed := billed + 1;
          }
        }
        assert subscriptions[..i] == done;
        CountsNext(before, subscriptions, i);
        i := i + 1;
      }
      assert before[..i] == before && subscriptions[..i] == subscriptions;
      return billed, lapsed, i;
    }
  }

  lemma {:induction false} CountsUntouched(before: seq<Subscription>, after: seq<Subscription>, i: nat)
    requires |before| == |after| && i <= |before|
    requires forall j :: i <= j < |before| ==> after[j] == before[j]
    ensures Lapsed(before, after) == Lapsed(before[..i], after[..i])
    ensures Billed(before, after) == Billed(before[..i], after[..i])
    decreases |before|
  {
    if i == |before| {
      assert before[..i] == before && after[..i] == after;
    } else {
      var n := |before| - 1;
      CountsUntouched(before[..n], after[..n], i);
      assert before[..n][..i] == before[..i] && after[..n][..i] == after[..i];
    }
  }

  function RowsLapsed(before: seq<Subscription>, after: seq<Subscription>): set<nat>
    requires |before| == |after|
  {
    set i | 0 <= i < |before| && before[i].status != Expired && after[i].status == Expired
  }

  function RowsBilled(before: seq<Subscription>, after: seq<Subscription>): set<nat>
    requires |before| == |after|
  {
    set i | 0 <= i < |before| && |before[i].invoices| < |after[i].invoices|
  }

  lemma RowsNext(before: seq<Subscription>, after: seq<Subscription>)
    requires |before| == |after| > 0
    ensures var n := |before| - 1;
            && RowsLapsed(before, after)
               == RowsLapsed(before[..n], after[..n]) + (if before[n].status != Expired && after[n].status == Expired then {n} else {})
            && RowsBilled(before, after)
               == RowsBilled(before[..n], after[..n]) + (if |before[n].invoices| < |after[n].invoices| then {n} else {})
            && n !in RowsLapsed(before[..n], after[..n]) && n !in RowsBilled(before[..n], after[..n])
  {
  }

  lemma {:induction false} LapsedIsCount(before: seq<Subscription>, after: seq<Subscription>)
    requires |before| == |after|
    ensures Lapsed(before, after) == |RowsLapsed(before, after)|
  {
    if before != [] {
      var n := |before| - 1;
      LapsedIsCount(before[..n], after[..n]);
      RowsNext(before, after);
      hide RowsLapsed, RowsBilled;
    }
  }

  lemma {:induction false} BilledIsCount(before: seq<Subscription>, after: seq<Subscription>)
    requires |before| == |after|
    ensures Billed(before, after) == |RowsBilled(before, after)|
  {
    if before != [] {
      var n := |before| - 1;
      BilledIsCount(before[..n], after[..n]);
      RowsNext(before, after);
      hide RowsLapsed, RowsBilled;
    }
  }

  // ---- runs of one subscription ----

  datatype BillingEvent =
    | EvSignUp(now: Time, providerOk: bool)
    | EvVerified(invoice: nat, kobo: int, grantUsd: real)
    | EvFailed(invoice: nat)
    | EvSweep(now: Time, providerOk: bool)
    | EvCancel
    | EvQuote(now: Time)
    | EvLedger(call: ScCall)

  /** One event; the credit ledger also sees debits, reversals and adjustments, but grants only from here. */
  function Step(s: Subscription, e: BillingEvent, monthlyLimit: nat): Subscription {
    match e
    case EvSignUp(now, providerOk) => SignUp(s, now, providerOk).next
    case EvVerified(i, kobo, grantUsd) => VerifiedPayment(s, i, kobo, grantUsd).next
    case EvFailed(i) => FailedPayment(s, i).next
    case EvSweep(now, providerOk) => SweepOne(s, now, providerOk).next
    case EvCancel => Cancel(s).next
    case EvQuote(now) => QuoteDiscounted(s, now, monthlyLimit).next
    case EvLedger(call) => if call.GrantCall? then s else s.(rows := ScLedger.Step(s.rows, call))
  }

  function Run(s: Subscription, events: seq<BillingEvent>, monthlyLimit: nat): Subscription
    decreases |events|
  {
    if events == [] then s else Run(Step(s, events[0], monthlyLimit), events[1..], monthlyLimit)
  }

  function PaidCount(invoices: seq<PeriodInvoice>): nat {
    if invoices == [] then 0
    else PaidCount(invoices[..|invoices| - 1]) + if invoices[|invoices| - 1].status == Paid then 1 else 0
  }

  function GrantCount(rows: seq<ScRow>): nat {
    if rows == [] then 0
    else GrantCount(rows[..|rows| - 1]) + if rows[|rows| - 1].kind == Grant then 1 else 0
  }

  /** A renewal is raised only on top of a paid invoice: every invoice below a renewal is paid or a
      sign-up attempt, and the one directly below is paid. */
  predicate RenewalsOnPaid(invoices: seq<PeriodInvoice>) {
    forall i :: 1 <= i < |invoices| && invoices[i].renewal ==> invoices[i - 1].status == Paid
  }

  /** Sign-up attempts first, renewals after. */
  predicate SignUpsFirst(invoices: seq<PeriodInvoice>) {
    forall i, j :: 0 <= i < j < |invoices| && invoices[i].renewal ==> invoices[j].renewal
  }

  predicate WholePeriods(invoices: seq<PeriodInvoice>) {
    forall i :: 0 <= i < |invoices| ==> invoices[i].periodEnd == invoices[i].periodStart + BILLING_PERIOD
  }

  predicate NonePaid(invoices: seq<PeriodInvoice>) {
    forall i :: 0 <= i < |invoices| ==> invoices[i].status != Paid && !invoices[i].renewal
  }

  /** Where an active subscription stands: in the period of its newest invoice when that is a renewal,
      otherwise in the period of a paid sign-up. */
  predicate InPeriod(s: Subscription) {
    && s.current < |s.invoices|
    && s.renewsAt == Some(s.invoices[s.current].periodEnd)
    && (if s.invoices[s.current].renewal then s.current == |s.invoices| - 1
        else s.invoices[s.current].status == Paid && !s.invoices[|s.invoices| - 1].renewal)
  }

  predicate Sound(s: Subscription, monthlyLimit: nat) {
    && GrantCount(s.rows) == PaidCount(s.invoices)
    && s.status != Paused
    && RenewalsOnPaid(s.invoices) && SignUpsFirst(s.invoices) && WholePeriods(s.invoices)
    && (s.status == Pending ==> NonePaid(s.invoices) && s.discounted == [] && s.renewsAt.None?)
    && (s.status == Active ==> InPeriod(s))
    && (s.status == Active || s.status == Expired ==> PaidCount(s.invoices) >= 1)
    && UsedThisPeriod(s) <= monthlyLimit
  }

  lemma {:induction false} PaidCountUpdate(invoices: seq<PeriodInvoice>, i: nat, status: InvoiceStatus)
    requires i < |invoices|
    ensures PaidCount(invoices[i := invoices[i].(status := status)])
         == PaidCount(invoices) + (if status == Paid then 1 else 0) - (if invoices[i].status == Paid then 1 else 0)
  {
    var n := |invoices| - 1;
    var after := invoices[i := invoices[i].(status := status)];
    if i == n {
      assert after[..n] == invoices[..n];
    } else {
      assert after[..n] == invoices[..n][i := invoices[..n][i].(status := status)];
      PaidCountUpdate(invoices[..n], i, status);
    }
  }

  lemma {:induction false} PaidCountPositive(invoices: seq<PeriodInvoice>, i: nat)
    requires i < |invoices| && invoices[i].status == Paid
    ensures PaidCount(invoices) >= 1
  {
    if i < |invoices| - 1 {
      PaidCountPositive(invoices[..|invoices| - 1], i);
    }
  }

  lemma RowAppend(rows: seq<ScRow>, r: ScRow)
    ensures GrantCount(rows + [r]) == GrantCount(rows) + if r.kind == Grant then 1 else 0
  {
    assert (rows + [r])[..|rows|] == rows;
  }

  lemma InvoiceAppend(invoices: seq<PeriodInvoice>, v: PeriodInvoice)
    ensures PaidCount(invoices + [v]) == PaidCount(invoices) + if v.status == Paid then 1 else 0
  {
    assert (invoices + [v])[..|invoices|] == invoices;
  }

  /** A later period start counts no more quotes. */
  lemma {:induction false} CountLater(times: seq<Time>, since: Time, later: Time)
    requires since <= later
    ensures CountSince(times, later) <= CountSince(times, since)
  {
    if times != [] {
      CountLater(times[..|times| - 1], since, later);
    }
  }

  /** A sign-up raises one unpaid invoice for the period from now, at the subscription's price, on a pending row whose
      provider agrees, and otherwise changes nothing. */
  lemma SignUpSound(s: Subscription, now: Time, providerOk: bool, limit: nat)
    requires Sound(s, limit)
    ensures Sound(SignUp(s, now, providerOk).next, limit)
    ensures var next := SignUp(s, now, providerOk).next;
            next == if s.status == Pending && providerOk
                    then s.(invoices := s.invoices + [PeriodInvoice(now, now + BILLING_PERIOD, s.amountKobo, Unpaid, false)])
                    else s
  {
    hide GrantCount, PaidCount, CountSince;
    var next := SignUp(s, now, providerOk).next;
    if next != s {
      InvoiceAppend(s.invoices, next.invoices[|s.invoices|]);
    }
  }

  /** A payment verified for the first time grants once and activates a pending subscription for the period paid;
      a replay, a mismatch or an unknown invoice changes nothing. */
  lemma VerifiedSound(s: Subscription, i: nat, kobo: int, grantUsd: real, limit: nat)
    requires Sound(s, limit)
    ensures Sound(VerifiedPayment(s, i, kobo, grantUsd).next, limit)
    ensures var next := VerifiedPayment(s, i, kobo, grantUsd).next;
            var firstTime := i < |s.invoices| && s.invoices[i].amountKobo == kobo && s.invoices[i].status != Paid;
            && GrantCount(next.rows) == GrantCount(s.rows) + (if firstTime then 1 else 0)
            && Balance(next.rows) == Balance(s.rows) + (if !firstTime then 0.0 else if grantUsd < 0.0 then -grantUsd else grantUsd)
            && (!firstTime ==> next == s)
            && VerifiedPayment(next, i, kobo, grantUsd).next == next
            && (firstTime && s.status == Pending ==> next.status == Active && next.renewsAt == Some(s.invoices[i].periodEnd))
            && (s.status != Pending ==> next.status == s.status && next.renewsAt == s.renewsAt)
  {
    hide GrantCount, PaidCount, Balance;
    var next := VerifiedPayment(s, i, kobo, grantUsd).next;
    if next != s {
      PaidCountUpdate(s.invoices, i, Paid);
      RowAppend(s.rows, ScRow(Grant, Abs(grantUsd), None, None));
      BalanceAfter(s.rows, GrantCall(grantUsd));
      PaidCountPositive(next.invoices, i);
      if s.status == Pending {
        assert CountSince([], PeriodStart(next)) == 0;
      }
    }
  }

  /** A failed payment marks its unpaid invoice, and cancels the subscription only while that is still pending. */
  lemma FailedSound(s: Subscription, i: nat, limit: nat)
    requires Sound(s, limit)
    ensures Sound(FailedPayment(s, i).next, limit)
    ensures var next := FailedPayment(s, i).next;
            var unpaid := i < |s.invoices| && s.invoices[i].status == Unpaid;
            && (!unpaid ==> next == s)
            && (unpaid ==>
                  && next.invoices == s.invoices[i := s.invoices[i].(status := Failed)]
                  && next.status == (if s.status == Pending then Cancelled else s.status)
                  && next.rows == s.rows && next.renewsAt == s.renewsAt)
  {
    hide GrantCount, PaidCount;
    if FailedPayment(s, i).next != s {
      PaidCountUpdate(s.invoices, i, Failed);
    }
  }

  /** A due subscription lapses exactly when its newest invoice is unpaid; otherwise the next period is billed, on
      top of a paid invoice, and the renewal date moves forward. */
  lemma SweepSound(s: Subscription, now: Time, providerOk: bool, limit: nat)
    requires Sound(s, limit)
    ensures Sound(SweepOne(s, now, providerOk).next, limit)
    ensures var next := SweepOne(s, now, providerOk).next;
            && (next.status != s.status <==> RenewalDue(s, now) && NewestUnpaid(s))
            && (next.status != s.status ==> next == s.(status := Expired))
            && (next.invoices != s.invoices <==> RenewalDue(s, now) && !NewestUnpaid(s) && providerOk)
            && (next.invoices != s.invoices ==>
                  && next.invoices == s.invoices + [PeriodInvoice(now, now + BILLING_PERIOD, s.amountKobo, Unpaid, true)]
                  && s.invoices[|s.invoices| - 1].status == Paid
                  && next.renewsAt == Some(now + BILLING_PERIOD) && s.renewsAt.value < next.renewsAt.value)
  {
    hide GrantCount, PaidCount;
    var next := SweepOne(s, now, providerOk).next;
    if next.invoices != s.invoices {
      InvoiceAppend(s.invoices, next.invoices[|s.invoices|]);
      CountLater(s.discounted, PeriodStart(s), PeriodStart(next));
    }
  }

  /** A quote is discounted exactly while the subscription is active with allowance left in its period. */
  lemma QuoteSound(s: Subscription, now: Time, limit: nat)
    requires Sound(s, limit)
    ensures Sound(QuoteDiscounted(s, now, limit).next, limit)
    ensures QuoteDiscounted(s, now, limit).next == s.(discounted := s.discounted + [now])
       <==> s.status == Active && UsedThisPeriod(s) < limit
    ensures QuoteDiscounted(s, now, limit).next == s <==> !(s.status == Active && UsedThisPeriod(s) < limit)
  {
    assert |s.discounted + [now]| == |s.discounted| + 1;
    assert (s.discounted + [now])[..|s.discounted|] == s.discounted;
  }

  lemma LedgerSound(s: Subscription, call: ScCall, limit: nat)
    requires Sound(s, limit) && !call.GrantCall?
    ensures Sound(s.(rows := ScLedger.Step(s.rows, call)), limit)
  {
    var rows := ScLedger.Step(s.rows, call);
    if rows != s.rows {
      RowAppend(s.rows, rows[|s.rows|]);
      assert rows == s.rows + [rows[|s.rows|]];
    }
  }

  /** The allowance of an active subscription runs from the start of the period its current invoice bills. */
  lemma PeriodIsInvoiced(s: Subscription, limit: nat)
    requires Sound(s, limit) && s.status == Active
    ensures s.current < |s.invoices| && PeriodStart(s) == s.invoices[s.current].periodStart
    ensures s.renewsAt == Some(PeriodStart(s) + 30 * 86_400_000)
  {
  }

  function RowsSince(times: seq<Time>, since: Time): set<nat> {
    set i | 0 <= i < |times| && since <= times[i]
  }

  lemma RowsSinceNext(times: seq<Time>, since: Time)
    requires times != []
    ensures var n := |times| - 1;
            && RowsSince(times, since) == RowsSince(times[..n], since) + (if since <= times[n] then {n} else {})
            && n !in RowsSince(times[..n], since)
  {
  }

  /** Used this period: the number of discounted quotes made no earlier than its start. */
  lemma {:induction false} CountSinceIsCount(times: seq<Time>, since: Time)
    ensures CountSince(times, since) == |RowsSince(times, since)|
  {
    if times != [] {
      CountSinceIsCount(times[..|times| - 1], since);
      RowsSinceNext(times, since);
      hide RowsSince;
    }
  }

  /** Why a call is refused, in the order the guards are met. */
  lemma RefusedExactly(s: Subscription, i: nat, kobo: int, grantUsd: real, now: Time, providerOk: bool)
    ensures SignUp(s, now, providerOk).error
         == if s.status == Active then Some(AlreadySubscribed) else if s.status != Pending then Some(NotPending)
            else if !providerOk then Some(ProviderFailed) else None
    ensures VerifiedPayment(s, i, kobo, grantUsd).error
         == if |s.invoices| <= i then Some(InvoiceNotFound) else if kobo != s.invoices[i].amountKobo then Some(AmountMismatch) else None
    ensures FailedPayment(s, i).error == if |s.invoices| <= i then Some(InvoiceNotFound) else None
    ensures SweepOne(s, now, providerOk).error
         == if RenewalDue(s, now) && !NewestUnpaid(s) && !providerOk then Some(ProviderFailed) else None
    ensures RenewalDue(s, now) <==> s.status == Active && s.renewsAt.Some? && now - s.renewsAt.value >= 0
  {
    hide Granted;
  }

  /** An active or pending subscription can be cancelled, and nothing else about it changes. */
  lemma CancelExactly(s: Subscription)
    ensures Cancel(s).next == if s.status == Active || s.status == Pending then s.(status := Cancelled) else s
    ensures Cancel(s).error.None? <==> s.status == Active || s.status == Pending
  {
  }

  lemma StepSound(s: Subscription, e: BillingEvent, limit: nat)
    requires Sound(s, limit)
    ensures Sound(Step(s, e, limit), limit)
  {
    hide SignUp, VerifiedPayment, FailedPayment, SweepOne, QuoteDiscounted, ScLedger.Step;
    match e
    case EvSignUp(now, providerOk) => SignUpSound(s, now, providerOk, limit);
    case EvVerified(i, kobo, grantUsd) => VerifiedSound(s, i, kobo, grantUsd, limit);
    case EvFailed(i) => FailedSound(s, i, limit);
    case EvSweep(now, providerOk) => SweepSound(s, now, providerOk, limit);
    case EvCancel =>
    case EvQuote(now) => QuoteSound(s, now, limit);
    case EvLedger(call) => if !call.GrantCall? { LedgerSound(s, call, limit); }
  }

  lemma {:induction false} RunSound(s: Subscription, events: seq<BillingEvent>, limit: nat)
    requires Sound(s, limit)
    ensures Sound(Run(s, events, limit), limit)
    decreases |events|
  {
    hide Sound, Step;
    if events != [] {
      StepSound(s, events[0], limit);
      RunSound(Step(s, events[0], limit), events[1..], limit);
    }
  }

  /** The credit granted, in dollars. */
  function GrantedUsd(rows: seq<ScRow>): real {
    if rows == [] then 0.0
    else GrantedUsd(rows[..|rows| - 1]) + if rows[|rows| - 1].kind == Grant then rows[|rows| - 1].amountUsd else 0.0
  }

  /** The grants owed for the payments of a run that are verified for the first time, at the invoiced amount. */
  function GrantsDue(s: Subscription, events: seq<BillingEvent>, monthlyLimit: nat): real
    decreases |events|
  {
    if events == [] then 0.0
    else
      var e := events[0];
      var due :=
        if && e.EvVerified? && e.invoice < |s.invoices| && s.invoices[e.invoice].amountKobo == e.kobo
           && s.invoices[e.invoice].status != Paid
        then (if e.grantUsd < 0.0 then -e.grantUsd else e.grantUsd) else 0.0;
      due + GrantsDue(Step(s, e, monthlyLimit), events[1..], monthlyLimit)
  }

  lemma GrantedAppend(rows: seq<ScRow>, r: ScRow)
    ensures GrantedUsd(rows + [r]) == GrantedUsd(rows) + if r.kind == Grant then r.amountUsd else 0.0
  {
    assert (rows + [r])[..|rows|] == rows;
  }

  lemma StepGrants(s: Subscription, e: BillingEvent, limit: nat)
    ensures GrantedUsd(Step(s, e, limit).rows) == GrantedUsd(s.rows) + GrantsDue(s, [e], limit)
  {
    assert [e][1..] == [];
    assert GrantsDue(Step(s, e, limit), [], limit) == 0.0;
    hide GrantedUsd;
    match e
    case EvVerified(i, kobo, grantUsd) => GrantedAppend(s.rows, ScRow(Grant, Abs(grantUsd), None, None));
    case EvLedger(call) => if !call.GrantCall? { LedgerGrantsNothing(s.rows, call); }
    case _ =>
  }

  lemma LedgerGrantsNothing(rows: seq<ScRow>, call: ScCall)
    requires !call.GrantCall?
    ensures GrantedUsd(ScLedger.Step(rows, call)) == GrantedUsd(rows)
  {
    hide GrantedUsd, Balance;
    var after := ScLedger.Step(rows, call);
    if after != rows {
      assert after == rows + [after[|rows|]] && after[|rows|].kind != Grant;
      GrantedAppend(rows, after[|rows|]);
    }
  }

  lemma {:induction false} RunGrants(s: Subscription, events: seq<BillingEvent>, limit: nat)
    ensures GrantedUsd(Run(s, events, limit).rows) == GrantedUsd(s.rows) + GrantsDue(s, events, limit)
    decreases |events|
  {
    if events != [] {
      StepGrants(s, events[0], limit);
      assert [events[0]][1..] == [] && GrantsDue(Step(s, events[0], limit), [], limit) == 0.0;
      hide GrantedUsd, Step;
      RunGrants(Step(s, events[0], limit), events[1..], limit);
    }
  }

  /** Over every run, the credit ever granted to a subscription is what its first-time verified payments earned. */
  lemma CreditMatchesPayments(amountKobo: int, startedAt: Time, events: seq<BillingEvent>, limit: nat)
    ensures GrantedUsd(Run(NewSubscription(amountKobo, startedAt), events, limit).rows)
         == GrantsDue(NewSubscription(amountKobo, startedAt), events, limit)
  {
    RunGrants(NewSubscription(amountKobo, startedAt), events, limit);
  }

  /** Over every run of sign-ups, webhooks in any order, sweeps, cancellations, quotes and ledger calls:
      one grant per paid invoice, active or expired only after a payment, every renewal but possibly the
      newest paid, and never more discounted quotes in the current period than the plan allows. */
  lemma BillingGuarantees(amountKobo: int, startedAt: Time, events: seq<BillingEvent>, monthlyLimit: nat)
    ensures var s := Run(NewSubscription(amountKobo, startedAt), events, monthlyLimit);
            && GrantCount(s.rows) == PaidCount(s.invoices)
            && (s.status == Active || s.status == Expired ==> PaidCount(s.invoices) >= 1)
            && (s.status == Pending ==> GrantCount(s.rows) == 0)
            && (forall i :: 0 <= i < |s.invoices| - 1 && s.invoices[i].renewal ==> s.invoices[i].status == Paid)
            && UsedThisPeriod(s) <= monthlyLimit
            && (s.status == Active ==> s.current < |s.invoices| && PeriodStart(s) == s.invoices[s.current].periodStart)
  {
    var s := Run(NewSubscription(amountKobo, startedAt), events, monthlyLimit);
    RunSound(NewSubscription(amountKobo, startedAt), events, monthlyLimit);
    forall i | 0 <= i < |s.invoices| - 1 && s.invoices[i].renewal
      ensures s.invoices[i].status == Paid
    {
      assert s.invoices[i + 1].renewal && s.invoices[i + 1 - 1].status == Paid;
    }
    if s.status == Pending {
      NonePaidCount(s.invoices);
    }
  }

  lemma {:induction false} NonePaidCount(invoices: seq<PeriodInvoice>)
    requires NonePaid(invoices)
    ensures PaidCount(invoices) == 0
  {
    if invoices != [] {
      NonePaidCount(invoices[..|invoices| - 1]);
    }
  }

  // ---- who lapses ----

  /** A due subscription lapses although its current period is paid exactly when its newest invoice is an
      unpaid sign-up attempt: a checkout started again before the one that was paid. */
  lemma LapseDespitePayment(s: Subscription, now: Time, providerOk: bool, limit: nat)
    requires Sound(s, limit) && RenewalDue(s, now)
    ensures (SweepOne(s, now, providerOk).next.status == Expired && s.invoices[s.current].status == Paid)
       <==> NewestUnpaid(s) && !s.invoices[|s.invoices| - 1].renewal
  {
  }

  /** It does happen: two checkouts, the first one paid, the renewal date reached. */
  lemma RetriedSignUpLapses()
    ensures var s := Run(NewSubscription(500, 0), [EvSignUp(0, true), EvSignUp(10, true), EvVerified(0, 500, 50.0)], 2);
            && s.status == Active && s.current == 0 && s.invoices[0].status == Paid
            && RenewalDue(s, BILLING_PERIOD)
            && SweepOne(s, BILLING_PERIOD, true).next.status == Expired
  {
    var s0 := NewSubscription(500, 0);
    var s1 := SignUp(s0, 0, true).next;
    var s2 := SignUp(s1, 10, true).next;
    var s3 := VerifiedPayment(s2, 0, 500, 50.0).next;
    var e := [EvSignUp(0, true), EvSignUp(10, true), EvVerified(0, 500, 50.0)];
    assert e[1..] == [EvSignUp(10, true), EvVerified(0, 500, 50.0)];
    assert e[1..][1..] == [EvVerified(0, 500, 50.0)] && e[1..][1..][1..] == [];
    assert Run(s2, e[1..][1..], 2) == Run(s3, [], 2) == s3;
    assert Run(s1, e[1..], 2) == s3;
  }
}
