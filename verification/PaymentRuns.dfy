/** What every run of webhooks, refunds, decisions, reconciliations and sweeps guarantees of a payment. */
module PaymentRuns {
  import opened Wrappers
  import opened Payments

  lemma SumAppend(refunds: seq<Refund>, r: Refund)
    ensures SumRefunds(refunds + [r]) == SumRefunds(refunds) + r.amount
  {
    assert (refunds + [r])[..|refunds|] == refunds;
  }

  /** A step either leaves the refunds alone or appends one positive refund within what remained. */
  lemma RefundsGrow(p: Payment, cfg: Config, e: PaymentEvent)
    ensures var next := Step(p, cfg, e).next;
            || next.refunds == p.refunds
            || (&& (e.EvRefund? || e.EvApprove?) && Refundable(p) && next.amount == p.amount
                && exists r :: next.refunds == p.refunds + [r] && 0 < r.amount <= Remaining(p)
                     && next.status == (if r.amount == Remaining(p) then Refunded else PartiallyRefunded))
  {
    var next := Step(p, cfg, e).next;
    if next.refunds != p.refunds {
      var r := next.refunds[|p.refunds|];
      assert next.refunds == p.refunds + [r];
    }
  }

  // ---- refund conservation ----

  predicate AllPositive(refunds: seq<Refund>) {
    forall i :: 0 <= i < |refunds| ==> refunds[i].amount > 0
  }

  /** Refunds are positive and never exceed the payment. */
  predicate Covered(p: Payment) {
    AllPositive(p.refunds) && SumRefunds(p.refunds) <= p.amount
  }

  /** Finance accepts a mismatch at an amount below what has already been refunded. */
  predicate LowersBelowRefunds(p: Payment, e: PaymentEvent) {
    && e.EvResolve? && e.matched && p.status == ReconciliationRequired
    && e.resolvedAmount.Some? && e.resolvedAmount.value != 0 && e.resolvedAmount.value < SumRefunds(p.refunds)
  }

  /** Refunds stay covered through every event, except exactly such a reconciliation. */
  lemma CoverageStep(p: Payment, cfg: Config, e: PaymentEvent)
    requires Covered(p)
    ensures Covered(Step(p, cfg, e).next) <==> !LowersBelowRefunds(p, e)
  {
    hide SumRefunds;
    RefundsGrow(p, cfg, e);
    var next := Step(p, cfg, e).next;
    if next.refunds != p.refunds {
      var r :| next.refunds == p.refunds + [r] && 0 < r.amount <= Remaining(p);
      SumAppend(p.refunds, r);
    }
  }

  /** Covered now and after every event of a run. */
  predicate AlwaysCovered(p: Payment, cfg: Config, events: seq<PaymentEvent>)
    decreases |events|
  {
    Covered(p) && (events == [] || AlwaysCovered(Step(p, cfg, events[0]).next, cfg, events[1..]))
  }

  predicate NeverLowered(p: Payment, cfg: Config, events: seq<PaymentEvent>)
    decreases |events|
  {
    events == []
    || (!LowersBelowRefunds(p, events[0]) && NeverLowered(Step(p, cfg, events[0]).next, cfg, events[1..]))
  }

  lemma {:induction false} CoveredRuns(p: Payment, cfg: Config, events: seq<PaymentEvent>)
    requires Covered(p)
    ensures AlwaysCovered(p, cfg, events) <==> NeverLowered(p, cfg, events)
    decreases |events|
  {
    hide Covered, LowersBelowRefunds, Step;
    if events != [] {
      CoverageStep(p, cfg, events[0]);
      if !LowersBelowRefunds(p, events[0]) {
        CoveredRuns(Step(p, cfg, events[0]).next, cfg, events[1..]);
      } else if events[1..] == [] {
        assert !AlwaysCovered(Step(p, cfg, events[0]).next, cfg, []);
      }
    }
  }

  /** Over every run of a payment, refunds are positive and stay within the amount if and only if no
      reconciliation lowers the amount below them. */
  lemma RefundsStayCovered(invoice: nat, amount: nat, createdAt: Time, cfg: Config, events: seq<PaymentEvent>)
    ensures var p := NewPayment(invoice, amount, createdAt);
            AlwaysCovered(p, cfg, events) <==> NeverLowered(p, cfg, events)
  {
    CoveredRuns(NewPayment(invoice, amount, createdAt), cfg, events);
  }

  lemma {:induction false} RunAppend(p: Payment, cfg: Config, first: seq<PaymentEvent>, rest: seq<PaymentEvent>)
    ensures Run(p, cfg, first + rest) == Run(Run(p, cfg, first), cfg, rest)
    decreases |first|
  {
    hide Step;
    if first == [] {
      assert first + rest == rest;
    } else {
      assert (first + rest)[1..] == first[1..] + rest;
      RunAppend(Step(p, cfg, first[0]).next, cfg, first[1..], rest);
    }
  }

  lemma RunOne(p: Payment, cfg: Config, e: PaymentEvent)
    ensures Run(p, cfg, [e]) == Step(p, cfg, e).next
  {
    hide Step;
    assert [e][1..] == [];
  }

  lemma RunTwo(p: Payment, cfg: Config, e: PaymentEvent, f: PaymentEvent)
    ensures Run(p, cfg, [e, f]) == Step(Step(p, cfg, e).next, cfg, f).next
  {
    hide Step;
    assert [e, f][1..] == [f];
    RunOne(Step(p, cfg, e).next, cfg, f);
  }

  /** A payment of 1000 that was verified and then refunded in part or in full. */
  function Repaid(amount: nat): Payment {
    NewPayment(0, 1000, 0).(status := if amount == 1000 then Refunded else PartiallyRefunded, verifiedAt := Some(0),
                            refunds := [Refund(amount, 1)])
  }

  lemma RepaidRun(amount: nat)
    requires 0 < amount <= 1000
    ensures Run(NewPayment(0, 1000, 0), Config(5000, 0, 0), [EvVerified(Some(1000), 0), EvRefund(1, Some(amount), true)])
         == Repaid(amount)
    ensures SumRefunds(Repaid(amount).refunds) == amount
  {
    var cfg, refund := Config(5000, 0, 0), Refund(amount, 1);
    assert SumRefunds([]) == 0 && [] + [refund] == [refund];
    SumAppend([], refund);
    hide SumRefunds;
    RunTwo(NewPayment(0, 1000, 0), cfg, EvVerified(Some(1000), 0), EvRefund(1, Some(amount), true));
  }

  /** The amount can be lowered below the refunds: 400 of 1000 go back, then a success webhook reports 300 and
      Finance accepts it. */
  lemma ReconciliationUncovers()
    ensures var events := [EvVerified(Some(1000), 0), EvRefund(1, Some(400), true)]
                          + [EvVerified(Some(300), 1), EvResolve(true, Some(300), 2)];
            var p := Run(NewPayment(0, 1000, 0), Config(5000, 0, 0), events);
            p.status == Paid && p.amount == 300 && SumRefunds(p.refunds) == 400
  {
    hide SumRefunds, Run;
    var cfg := Config(5000, 0, 0);
    RepaidRun(400);
    RunAppend(NewPayment(0, 1000, 0), cfg, [EvVerified(Some(1000), 0), EvRefund(1, Some(400), true)],
              [EvVerified(Some(300), 1), EvResolve(true, Some(300), 2)]);
    RunTwo(Repaid(400), cfg, EvVerified(Some(300), 1), EvResolve(true, Some(300), 2));
  }

  /** The status says what the refunds sum to, in every stage of a payment's life. */
  predicate Settled(p: Payment) {
    && Covered(p)
    && match p.status
       case PartiallyRefunded => 0 < SumRefunds(p.refunds) < p.amount
       case Refunded => 0 < SumRefunds(p.refunds) == p.amount
       case _ => SumRefunds(p.refunds) == 0
  }

  /** A provider webhook that arrives after refunding has begun. */
  predicate LateWebhook(p: Payment, e: PaymentEvent) {
    (e.EvVerified? || e.EvFailed?) && (p.status == PartiallyRefunded || p.status == Refunded)
  }

  /** A settled payment stays settled through every event, except exactly a late webhook. */
  lemma SettledStep(p: Payment, cfg: Config, e: PaymentEvent)
    requires Settled(p)
    ensures Settled(Step(p, cfg, e).next) <==> !LateWebhook(p, e)
  {
    hide SumRefunds;
    RefundsGrow(p, cfg, e);
    CoverageStep(p, cfg, e);
    var next := Step(p, cfg, e).next;
    if next.refunds != p.refunds {
      var r :| next.refunds == p.refunds + [r] && 0 < r.amount <= Remaining(p)
               && next.status == (if r.amount == Remaining(p) then Refunded else PartiallyRefunded);
      SumAppend(p.refunds, r);
      SumNonNegative(p.refunds);
    }
  }

  lemma {:induction false} SumNonNegative(refunds: seq<Refund>)
    requires AllPositive(refunds)
    ensures SumRefunds(refunds) >= 0
  {
    if refunds != [] {
      SumNonNegative(refunds[..|refunds| - 1]);
    }
  }

  /** Settled now and after every event of a run. */
  predicate AlwaysSettled(p: Payment, cfg: Config, events: seq<PaymentEvent>)
    decreases |events|
  {
    Settled(p) && (events == [] || AlwaysSettled(Step(p, cfg, events[0]).next, cfg, events[1..]))
  }

  predicate NoLateWebhook(p: Payment, cfg: Config, events: seq<PaymentEvent>)
    decreases |events|
  {
    events == [] || (!LateWebhook(p, events[0]) && NoLateWebhook(Step(p, cfg, events[0]).next, cfg, events[1..]))
  }

  lemma {:induction false} SettledRuns(p: Payment, cfg: Config, events: seq<PaymentEvent>)
    requires Settled(p)
    ensures AlwaysSettled(p, cfg, events) <==> NoLateWebhook(p, cfg, events)
    decreases |events|
  {
    hide Settled, LateWebhook, Step;
    if events != [] {
      SettledStep(p, cfg, events[0]);
      if !LateWebhook(p, events[0]) {
        SettledRuns(Step(p, cfg, events[0]).next, cfg, events[1..]);
      } else if events[1..] == [] {
        assert !AlwaysSettled(Step(p, cfg, events[0]).next, cfg, []);
      }
    }
  }

  /** Refund conservation, over every run of a payment from its first checkout: refunds are positive, stay within
      the amount, and the status says exactly how much is back (all, some, or nothing), if and only if no webhook
      meets a payment whose refunding has begun. */
  lemma RefundConservation(invoice: nat, amount: nat, createdAt: Time, cfg: Config, events: seq<PaymentEvent>)
    ensures var p := NewPayment(invoice, amount, createdAt);
            AlwaysSettled(p, cfg, events) <==> NoLateWebhook(p, cfg, events)
  {
    SettledRuns(NewPayment(invoice, amount, createdAt), cfg, events);
  }

  /** A late webhook undoes the refunded status: the money is back, yet the payment reads paid, or failed. */
  lemma LateWebhookUnsettles(now: Time)
    ensures var cfg, events := Config(5000, 0, 0), [EvVerified(Some(1000), 0), EvRefund(1, Some(1000), true)];
            var refunded := Run(NewPayment(0, 1000, 0), cfg, events);
            var replayed := Run(NewPayment(0, 1000, 0), cfg, events + [EvVerified(Some(1000), now)]);
            var failed := Run(NewPayment(0, 1000, 0), cfg, events + [EvFailed]);
            && refunded.status == Refunded && SumRefunds(refunded.refunds) == 1000
            && replayed == refunded.(status := Paid, verifiedAt := Some(now))
            && failed == refunded.(status := Failed)
  {
    hide SumRefunds, Run;
    var cfg, events := Config(5000, 0, 0), [EvVerified(Some(1000), 0), EvRefund(1, Some(1000), true)];
    RepaidRun(1000);
    RunAppend(NewPayment(0, 1000, 0), cfg, events, [EvVerified(Some(1000), now)]);
    RunAppend(NewPayment(0, 1000, 0), cfg, events, [EvFailed]);
    RunOne(Repaid(1000), cfg, EvVerified(Some(1000), now));
    RunOne(Repaid(1000), cfg, EvFailed);
  }

  /** A refused call writes nothing, unless it is the mismatch report, which flags the payment for Finance
      and touches neither amount, refunds nor requests; only Finance ever changes the amount. */
  lemma RefusedCalls(p: Payment, cfg: Config, e: PaymentEvent)
    ensures var o := Step(p, cfg, e);
            o.error.Some? && o.next != p ==>
              && o.error == Some(AmountMismatch) && p.status != Paid
              && o.next == p.(status := ReconciliationRequired) && o.toCase == Show(ReconciliationRequired)
    ensures Step(p, cfg, e).next.amount != p.amount ==>
              && e.EvResolve? && e.matched && p.status == ReconciliationRequired
              && e.resolvedAmount == Some(Step(p, cfg, e).next.amount)
    ensures p.verifiedAt.Some? ==> Step(p, cfg, e).next.verifiedAt.Some?
  {
  }

  // ---- PAID is stable ----

  /** A paid payment leaves PAID by a refund and by nothing else, and keeps its amount and timestamp. */
  lemma PaidStep(p: Payment, cfg: Config, e: PaymentEvent)
    requires p.status == Paid
    ensures var next := Step(p, cfg, e).next;
            && (next.status == Paid <==> next.refunds == p.refunds)
            && (next.status != Paid ==> e.EvRefund? || e.EvApprove?)
            && next.amount == p.amount && next.verifiedAt == p.verifiedAt && next.createdAt == p.createdAt
  {
    RefundsGrow(p, cfg, e);
  }

  /** Over any run in which no refund is recorded, a paid payment stays exactly as paid as it was. */
  lemma {:induction false} PaidIsStable(p: Payment, cfg: Config, events: seq<PaymentEvent>)
    requires p.status == Paid && Run(p, cfg, events).refunds == p.refunds
    ensures var final := Run(p, cfg, events);
            final.status == Paid && final.amount == p.amount && final.verifiedAt == p.verifiedAt
    decreases |events|
  {
    if events != [] {
      var next := Step(p, cfg, events[0]).next;
      PaidStep(p, cfg, events[0]);
      RefundsAppendOnly(p, cfg, [events[0]]);
      assert [events[0]][1..] == [] && Run(p, cfg, [events[0]]) == next;
      RefundsAppendOnly(next, cfg, events[1..]);
      assert |p.refunds| <= |next.refunds| <= |Run(p, cfg, events).refunds|;
      PaidIsStable(next, cfg, events[1..]);
    }
  }

  lemma {:induction false} RefundsAppendOnly(p: Payment, cfg: Config, events: seq<PaymentEvent>)
    ensures p.refunds <= Run(p, cfg, events).refunds
    decreases |events|
  {
    if events != [] {
      RefundsGrow(p, cfg, events[0]);
      RefundsAppendOnly(Step(p, cfg, events[0]).next, cfg, events[1..]);
    }
  }

  /** A payment becomes PAID exactly on a charge verified at its own amount, by webhook or poll, or by Finance. */
  lemma BecomesPaid(p: Payment, cfg: Config, e: PaymentEvent)
    requires p.status != Paid
    ensures Step(p, cfg, e).next.status == Paid
       <==> || (e.EvVerified? && e.kobo == Some(p.amount))
            || (e.EvVerificationSweep? && PollCandidate(p, cfg, e.now) && e.answer == ChargeSucceeded(Some(p.amount)))
            || (e.EvResolve? && e.matched && p.status == ReconciliationRequired)
    ensures Step(p, cfg, e).next.status == Paid ==> Step(p, cfg, e).next.verifiedAt == Some(e.now)
  {
  }

  /** What the poll hears about a payment it may ask about. */
  predicate Hears(p: Payment, cfg: Config, e: PaymentEvent, answer: ProviderAnswer) {
    && e.EvVerificationSweep? && e.answer == answer
    && (p.status == Pending || p.status == Processing)
    && cfg.minAgeMs < e.now - p.createdAt <= cfg.expiryMs
  }

  /** Exactly when a payment fails, expires, is seen in flight, or is flagged for Finance. */
  lemma OtherStatuses(p: Payment, cfg: Config, e: PaymentEvent)
    ensures var after := Step(p, cfg, e).next.status;
            && (p.status != Failed ==> (after == Failed <==>
                  || (e.EvFailed? && p.status != Paid)
                  || Hears(p, cfg, e, ChargeFailed)
                  || (e.EvResolve? && !e.matched && p.status == ReconciliationRequired)))
            && (p.status != Expired ==> (after == Expired <==>
                  e.EvExpirySweep? && (p.status == Pending || p.status == Processing) && e.now - p.createdAt > cfg.expiryMs))
            && (p.status != Processing ==> (after == Processing <==> Hears(p, cfg, e, InFlight)))
            && (p.status != ReconciliationRequired ==> (after == ReconciliationRequired <==>
                  || (e.EvVerified? && e.kobo != Some(p.amount) && p.status != Paid)
                  || exists kobo :: Hears(p, cfg, e, ChargeSucceeded(kobo)) && kobo != Some(p.amount)))
            && (p.status != Pending ==> after != Pending)
  {
    hide SumRefunds;
    if e.EvVerificationSweep? && e.answer.ChargeSucceeded? {
      assert Hears(p, cfg, e, ChargeSucceeded(e.answer.kobo)) <==> PollCandidate(p, cfg, e.now);
    }
  }

  /** An unresolved payment is at any moment too young to ask about, worth asking about, or stale; exactly one. */
  lemma WindowsPartition(p: Payment, cfg: Config, now: Time)
    requires p.status == Pending || p.status == Processing
    ensures Stale(p, cfg, now) <==> now - p.createdAt > cfg.expiryMs
    ensures PollCandidate(p, cfg, now) <==> cfg.minAgeMs < now - p.createdAt <= cfg.expiryMs
  {
  }

  /** Why a call is refused, in the order the guards are met. */
  function WhyRefused(p: Payment, cfg: Config, e: PaymentEvent): Option<PaymentError> {
    match e
    case EvVerified(kobo, _) => if kobo == Some(p.amount) then None else Some(AmountMismatch)
    case EvRefund(_, amount, providerOk) =>
      if WhyUnfit(p, Asked(p, amount)).Some? then WhyUnfit(p, Asked(p, amount))
      else if Asked(p, amount) <= cfg.threshold && !providerOk then Some(ProviderFailed) else None
    case EvApprove(i, actor, _, providerOk) =>
      if WhyUndecided(p, i, actor).Some? then WhyUndecided(p, i, actor)
      else if WhyUnfit(p, p.requests[i].amount).Some? then WhyUnfit(p, p.requests[i].amount)
      else if !providerOk then Some(ProviderFailed) else None
    case EvReject(i, actor, _) => WhyUndecided(p, i, actor)
    case EvResolve(_, _, _) => if p.status == ReconciliationRequired then None else Some(NotAwaitingReconciliation)
    case EvVerificationSweep(answer, _) =>
      if answer.ChargeSucceeded? && answer.kobo != Some(p.amount) && Hears(p, cfg, e, answer) then Some(AmountMismatch) else None
    case _ => None
  }

  function WhyUnfit(p: Payment, requested: int): Option<PaymentError> {
    if p.status != Paid && p.status != PartiallyRefunded then Some(NotRefundable(p.status))
    else if requested <= 0 || SumRefunds(p.refunds) + requested > p.amount then Some(RefundOutOfRange) else None
  }

  function WhyUndecided(p: Payment, i: nat, actor: UserId): Option<PaymentError> {
    if |p.requests| <= i then Some(RequestNotFound)
    else if p.requests[i].status in {Approved, Rejected} then Some(AlreadyDecided)
    else if p.requests[i].requestedBy == actor then Some(SamePerson) else None
  }

  /** That is exactly the error of every call. */
  lemma RefusedExactly(p: Payment, cfg: Config, e: PaymentEvent)
    ensures Step(p, cfg, e).error == WhyRefused(p, cfg, e)
  {
    hide SumRefunds;
  }

  // ---- what a refund call records ----

  predicate Fits(p: Payment, requested: int) {
    (p.status == Paid || p.status == PartiallyRefunded) && 0 < requested <= p.amount - SumRefunds(p.refunds)
  }

  /** What was asked for: an amount, or all that remains. */
  function Asked(p: Payment, amount: Option<int>): int {
    if amount.None? then p.amount - SumRefunds(p.refunds) else amount.value
  }

  /** The refund a call pays out, if any: at once up to the threshold, on a second person's approval of a request. */
  function PaidOut(p: Payment, cfg: Config, e: PaymentEvent): Option<Refund> {
    match e
    case EvRefund(actor, amount, providerOk) =>
      if providerOk && Fits(p, Asked(p, amount)) && Asked(p, amount) <= cfg.threshold
      then Some(Refund(Asked(p, amount), actor)) else None
    case EvApprove(i, actor, _, providerOk) =>
      if providerOk && Approvable(p, i, actor) then Some(Refund(p.requests[i].amount, actor)) else None
    case _ => None
  }

  predicate Decidable(p: Payment, i: nat, actor: UserId) {
    i < |p.requests| && p.requests[i].status == AwaitingDecision && p.requests[i].requestedBy != actor
  }

  predicate Approvable(p: Payment, i: nat, actor: UserId) {
    Decidable(p, i, actor) && Fits(p, p.requests[i].amount)
  }

  /** Exactly what a call adds to the refunds, and the status that follows. */
  lemma RefundRecorded(p: Payment, cfg: Config, e: PaymentEvent)
    ensures var next, paid := Step(p, cfg, e).next, PaidOut(p, cfg, e);
            && next.refunds == (if paid.Some? then p.refunds + [paid.value] else p.refunds)
            && (paid.Some? ==> next.status == if paid.value.amount == Remaining(p) then Refunded else PartiallyRefunded)
  {
    hide SumRefunds;
  }

  /** Exactly when a request is opened, and for what; and what becomes of a request already there. */
  lemma RequestRecorded(p: Payment, cfg: Config, e: PaymentEvent)
    ensures var asks := e.EvRefund? && Fits(p, Asked(p, e.amount)) && Asked(p, e.amount) > cfg.threshold;
            var next := Step(p, cfg, e).next.requests;
            && |next| == |p.requests| + (if asks then 1 else 0)
            && (asks ==> next[|p.requests|] == RefundRequest(Asked(p, e.amount), e.actor, AwaitingDecision, None, None))
            && forall i :: 0 <= i < |p.requests| ==>
                 next[i] == if e.EvApprove? && e.request == i && e.providerOk && Approvable(p, i, e.actor)
                              then p.requests[i].(status := Approved, decidedBy := Some(e.actor), decidedAt := Some(e.now))
                            else if e.EvReject? && e.request == i && Decidable(p, i, e.actor)
                              then p.requests[i].(status := Rejected, decidedBy := Some(e.actor), decidedAt := Some(e.now))
                            else p.requests[i]
  {
    hide SumRefunds;
  }

  /** The amount of a payment changes exactly to what Finance accepts for a mismatch. */
  lemma AmountAccepted(p: Payment, cfg: Config, e: PaymentEvent)
    ensures Step(p, cfg, e).next.amount
         == if e.EvResolve? && e.matched && p.status == ReconciliationRequired && e.resolvedAmount.Some? && e.resolvedAmount.value > 0
            then e.resolvedAmount.value else p.amount
    ensures Step(p, cfg, e).next.verifiedAt != p.verifiedAt ==> Step(p, cfg, e).next.status == Paid && p.status != Paid
  {
    hide SumRefunds;
  }

  predicate HoldsMoney(status: PaymentStatus) {
    status == Paid || status == PartiallyRefunded || status == Refunded
  }

  /** A paid or refunded payment carries a verification timestamp. */
  predicate Verified(p: Payment) {
    HoldsMoney(p.status) ==> p.verifiedAt.Some?
  }

  lemma {:induction false} VerifiedAlways(p: Payment, cfg: Config, events: seq<PaymentEvent>)
    requires Verified(p)
    ensures Verified(Run(p, cfg, events))
    decreases |events|
  {
    if events != [] {
      assert Verified(Step(p, cfg, events[0]).next);
      VerifiedAlways(Step(p, cfg, events[0]).next, cfg, events[1..]);
    }
  }

  lemma EveryPaidPaymentIsVerified(invoice: nat, amount: nat, createdAt: Time, cfg: Config, events: seq<PaymentEvent>)
    ensures Verified(Run(NewPayment(invoice, amount, createdAt), cfg, events))
  {
    VerifiedAlways(NewPayment(invoice, amount, createdAt), cfg, events);
  }

  // ---- maker and checker ----

  /** The refunds that needed approval. */
  function Large(refunds: seq<Refund>, threshold: int): seq<Refund> {
    if refunds == [] then []
    else
      Large(refunds[..|refunds| - 1], threshold)
      + if refunds[|refunds| - 1].amount > threshold then [refunds[|refunds| - 1]] else []
  }

  function ApprovedRefund(r: RefundRequest): seq<Refund> {
    if r.status == Approved && r.decidedBy.Some? then [Refund(r.amount, r.decidedBy.value)] else []
  }

  /** The refunds that approved requests stand for: the amount asked, paid out by the approver. */
  function ApprovedRefunds(requests: seq<RefundRequest>): seq<Refund> {
    if requests == [] then [] else ApprovedRefund(requests[0]) + ApprovedRefunds(requests[1..])
  }

  /** Each request is above the threshold, and is decided exactly when someone other than its maker decided it. */
  predicate WellDecided(r: RefundRequest, threshold: int) {
    && r.amount > threshold
    && (if r.status == AwaitingDecision then r.decidedBy.None? && r.decidedAt.None?
        else r.decidedBy.Some? && r.decidedBy.value != r.requestedBy && r.decidedAt.Some?)
  }

  /** Refunds above the threshold are, amount by amount and person by person, the approved requests. */
  predicate MakerChecker(p: Payment, threshold: int) {
    && (forall i :: 0 <= i < |p.requests| ==> WellDecided(p.requests[i], threshold))
    && multiset(Large(p.refunds, threshold)) == multiset(ApprovedRefunds(p.requests))
  }

  lemma {:induction false} ApprovedConcat(a: seq<RefundRequest>, b: seq<RefundRequest>)
    ensures ApprovedRefunds(a + b) == ApprovedRefunds(a) + ApprovedRefunds(b)
  {
    if a == [] {
      assert a + b == b;
    } else {
      assert (a + b)[0] == a[0] && (a + b)[1..] == a[1..] + b;
      ApprovedConcat(a[1..], b);
      hide ApprovedRefund;
      var x, y, z := ApprovedRefund(a[0]), ApprovedRefunds(a[1..]), ApprovedRefunds(b);
      assert x + (y + z) == (x + y) + z;
    }
  }

  lemma ApprovedOne(r: RefundRequest)
    ensures ApprovedRefunds([r]) == ApprovedRefund(r)
  {
    assert [r][1..] == [];
  }

  lemma ApprovedAppend(requests: seq<RefundRequest>, r: RefundRequest)
    requires r.status == AwaitingDecision
    ensures ApprovedRefunds(requests + [r]) == ApprovedRefunds(requests)
  {
    ApprovedConcat(requests, [r]);
    ApprovedOne(r);
  }

  /** Deciding one request adds its refund, or nothing, to what the requests stand for. */
  lemma ApprovedUpdate(requests: seq<RefundRequest>, i: nat, actor: UserId, now: Time, status: RequestStatus)
    requires i < |requests| && requests[i].status == AwaitingDecision && status != AwaitingDecision
    ensures multiset(ApprovedRefunds(requests[i := Decided(requests[i], status, actor, now)]))
         == multiset(ApprovedRefunds(requests))
            + if status == Approved then multiset{Refund(requests[i].amount, actor)} else multiset{}
  {
    var r := requests[i];
    var d, before, after := Decided(r, status, actor, now), requests[..i], requests[i + 1..];
    assert requests == before + ([r] + after) && requests[i := d] == before + ([d] + after);
    ApprovedOne(r);
    ApprovedOne(d);
    assert ApprovedRefund(r) == [];
    assert ApprovedRefund(d) == if status == Approved then [Refund(r.amount, actor)] else [];
    hide *;
    ApprovedConcat(before, [r] + after);
    ApprovedConcat([r], after);
    ApprovedConcat(before, [d] + after);
    ApprovedConcat([d], after);
    Inserted(ApprovedRefunds(before), ApprovedRefund(d), ApprovedRefunds(after));
    assert [] + ApprovedRefunds(after) == ApprovedRefunds(after);
  }

  lemma Inserted<T>(xs: seq<T>, middle: seq<T>, ys: seq<T>)
    ensures multiset(xs + (middle + ys)) == multiset(xs + ys) + multiset(middle)
  {
  }

  lemma LargeAppend(refunds: seq<Refund>, r: Refund, threshold: int)
    ensures Large(refunds + [r], threshold) == Large(refunds, threshold) + if r.amount > threshold then [r] else []
  {
    assert (refunds + [r])[..|refunds|] == refunds;
  }

  lemma RefundKeepsMakerChecker(p: Payment, cfg: Config, actor: UserId, amount: Option<int>, providerOk: bool)
    requires MakerChecker(p, cfg.threshold)
    ensures MakerChecker(RefundPayment(p, cfg, actor, amount, providerOk).next, cfg.threshold)
  {
    hide Large, ApprovedRefunds, SumRefunds;
    var next := RefundPayment(p, cfg, actor, amount, providerOk).next;
    if next.requests != p.requests {
      var r := next.requests[|p.requests|];
      assert next.requests == p.requests + [r] && next.refunds == p.refunds;
      ApprovedAppend(p.requests, r);
    } else if next.refunds != p.refunds {
      var r := next.refunds[|p.refunds|];
      assert next.refunds == p.refunds + [r];
      LargeAppend(p.refunds, r, cfg.threshold);
      assert Large(p.refunds, cfg.threshold) + [] == Large(p.refunds, cfg.threshold);
    }
  }

  lemma ApprovalKeepsMakerChecker(p: Payment, cfg: Config, request: nat, actor: UserId, now: Time, providerOk: bool)
    requires MakerChecker(p, cfg.threshold)
    ensures MakerChecker(ApproveRequest(p, request, actor, now, providerOk).next, cfg.threshold)
  {
    hide Large, ApprovedRefunds, SumRefunds;
    var next := ApproveRequest(p, request, actor, now, providerOk).next;
    if next != p {
      var r := Refund(p.requests[request].amount, actor);
      LargeAppend(p.refunds, r, cfg.threshold);
      ApprovedUpdate(p.requests, request, actor, now, Approved);
      assert next.refunds == p.refunds + [r];
      assert multiset(Large(p.refunds, cfg.threshold) + [r]) == multiset(Large(p.refunds, cfg.threshold)) + multiset{r};
    }
  }

  lemma RejectionKeepsMakerChecker(p: Payment, cfg: Config, request: nat, actor: UserId, now: Time)
    requires MakerChecker(p, cfg.threshold)
    ensures MakerChecker(RejectRequest(p, request, actor, now).next, cfg.threshold)
  {
    hide Large, ApprovedRefunds;
    if RejectRequest(p, request, actor, now).next != p {
      ApprovedUpdate(p.requests, request, actor, now, Rejected);
    }
  }

  lemma MakerCheckerStep(p: Payment, cfg: Config, e: PaymentEvent)
    requires MakerChecker(p, cfg.threshold)
    ensures MakerChecker(Step(p, cfg, e).next, cfg.threshold)
  {
    hide RefundPayment, ApproveRequest, RejectRequest, Large, ApprovedRefunds;
    match e
    case EvRefund(actor, amount, providerOk) => RefundKeepsMakerChecker(p, cfg, actor, amount, providerOk);
    case EvApprove(request, actor, now, providerOk) => ApprovalKeepsMakerChecker(p, cfg, request, actor, now, providerOk);
    case EvReject(request, actor, now) => RejectionKeepsMakerChecker(p, cfg, request, actor, now);
    case _ => OthersTouchNoRefund(p, cfg, e);
  }

  lemma OthersTouchNoRefund(p: Payment, cfg: Config, e: PaymentEvent)
    requires !e.EvRefund? && !e.EvApprove? && !e.EvReject?
    ensures Step(p, cfg, e).next.requests == p.requests && Step(p, cfg, e).next.refunds == p.refunds
  {
  }

  lemma {:induction false} MakerCheckerRun(p: Payment, cfg: Config, events: seq<PaymentEvent>)
    requires MakerChecker(p, cfg.threshold)
    ensures MakerChecker(Run(p, cfg, events), cfg.threshold)
    decreases |events|
  {
    if events != [] {
      MakerCheckerStep(p, cfg, events[0]);
      MakerCheckerRun(Step(p, cfg, events[0]).next, cfg, events[1..]);
    }
  }

  /** On every run of every event, large refunds correspond one to one with approved requests, each
      decided by someone other than its maker. */
  lemma MakerCheckerAlways(invoice: nat, amount: nat, createdAt: Time, cfg: Config, events: seq<PaymentEvent>)
    ensures MakerChecker(Run(NewPayment(invoice, amount, createdAt), cfg, events), cfg.threshold)
  {
    MakerCheckerRun(NewPayment(invoice, amount, createdAt), cfg, events);
  }

  /** A request keeps its amount and maker for ever, and once decided is never touched again. */
  lemma {:induction false} DecidedOnce(p: Payment, cfg: Config, events: seq<PaymentEvent>, i: nat)
    requires i < |p.requests|
    ensures var later := Run(p, cfg, events).requests;
            && i < |later| && later[i].amount == p.requests[i].amount && later[i].requestedBy == p.requests[i].requestedBy
            && (p.requests[i].status != AwaitingDecision ==> later[i] == p.requests[i])
    decreases |events|
  {
    if events != [] {
      var next := Step(p, cfg, events[0]).next;
      assert i < |next.requests|;
      DecidedOnce(next, cfg, events[1..], i);
    }
  }
}
