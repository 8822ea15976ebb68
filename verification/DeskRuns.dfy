/** What every run over many payments guarantees of the invoices and cases they belong to. */
module DeskRuns {
  import opened Wrappers
  import opened Payments
  import opened PaymentDesk
  import opened PaymentRuns
  import Machine = CaseStateMachine
  import Cases = CaseRecord
  import CaseRuns

  // ---- every payment of the desk lives a run of its own ----

  /** The events of a desk run that reach one payment. */
  function EventsOf(events: seq<DeskEvent>, i: nat): seq<PaymentEvent> {
    if events == [] then []
    else (if events[0].OnPayment? && events[0].payment == i then [events[0].event] else []) + EventsOf(events[1..], i)
  }

  lemma StepProjects(d: Desk, cfg: Config, e: DeskEvent, i: nat)
    requires WellFormed(d) && i < |d.payments|
    ensures var next := DeskStep(d, cfg, e);
            && |d.payments| <= |next.payments|
            && next.payments[i] == Run(d.payments[i], cfg, EventsOf([e], i))
  {
    hide Step;
    assert [e][1..] == [];
    if e.OnPayment? && e.payment == i {
      assert EventsOf([e], i) == [e.event];
      RunOne(d.payments[i], cfg, e.event);
    }
  }

  /** What happens to a payment among many is exactly the run of the events that reach it. */
  lemma {:induction false} DeskProjects(d: Desk, cfg: Config, events: seq<DeskEvent>, i: nat)
    requires WellFormed(d) && i < |d.payments|
    ensures var final := RunDesk(d, cfg, events);
            i < |final.payments| && final.payments[i] == Run(d.payments[i], cfg, EventsOf(events, i))
    decreases |events|
  {
    hide DeskStep, WellFormed;
    if events != [] {
      var next := DeskStep(d, cfg, events[0]);
      StepProjects(d, cfg, events[0], i);
      DeskProjects(next, cfg, events[1..], i);
      EventsSplit(events, i);
      RunAppend(d.payments[i], cfg, EventsOf([events[0]], i), EventsOf(events[1..], i));
    }
  }

  lemma EventsSplit(events: seq<DeskEvent>, i: nat)
    requires events != []
    ensures EventsOf(events, i) == EventsOf([events[0]], i) + EventsOf(events[1..], i)
  {
    assert [events[0]][1..] == [];
  }

  /** A payment on the desk that was not there before was opened for its invoice's amount. */
  lemma {:induction false} OpenedPayment(d: Desk, cfg: Config, events: seq<DeskEvent>, i: nat)
    returns (invoice: nat, amount: nat, createdAt: Time, own: seq<PaymentEvent>)
    requires WellFormed(d) && |d.payments| <= i < |RunDesk(d, cfg, events).payments|
    ensures RunDesk(d, cfg, events).payments[i] == Run(NewPayment(invoice, amount, createdAt), cfg, own)
    ensures invoice < |RunDesk(d, cfg, events).invoices| && RunDesk(d, cfg, events).invoices[invoice].amount == amount
    decreases |events|
  {
    hide RunDesk, DeskStep;
    assert events != [] && RunDesk(d, cfg, events) == RunDesk(DeskStep(d, cfg, events[0]), cfg, events[1..]) by {
      RunDeskUnfolds(d, cfg, events);
    }
    var next := DeskStep(d, cfg, events[0]);
    if i < |next.payments| {
      var p := OpenedByStep(d, cfg, events[0]);
      invoice, amount, createdAt := p.invoice, p.amount, p.createdAt;
      own := EventsOf(events[1..], i);
      DeskProjects(next, cfg, events[1..], i);
      InvoicesStay(next, cfg, events[1..]);
    } else {
      invoice, amount, createdAt, own := OpenedPayment(next, cfg, events[1..], i);
    }
  }

  lemma RunDeskUnfolds(d: Desk, cfg: Config, events: seq<DeskEvent>)
    requires WellFormed(d)
    ensures RunDesk(d, cfg, events) == if events == [] then d else RunDesk(DeskStep(d, cfg, events[0]), cfg, events[1..])
  {
  }

  lemma OpenedByStep(d: Desk, cfg: Config, e: DeskEvent) returns (p: Payment)
    requires WellFormed(d) && |d.payments| < |DeskStep(d, cfg, e).payments|
    ensures DeskStep(d, cfg, e).payments == d.payments + [p] && DeskStep(d, cfg, e).invoices == d.invoices
    ensures p.invoice < |d.invoices| && p == NewPayment(p.invoice, d.invoices[p.invoice].amount, p.createdAt)
  {
    p := DeskStep(d, cfg, e).payments[|d.payments|];
  }

  lemma {:induction false} InvoicesStay(d: Desk, cfg: Config, events: seq<DeskEvent>)
    requires WellFormed(d)
    ensures d.invoices <= RunDesk(d, cfg, events).invoices
    decreases |events|
  {
    if events != [] {
      assert d.invoices <= DeskStep(d, cfg, events[0]).invoices;
      hide DeskStep;
      InvoicesStay(DeskStep(d, cfg, events[0]), cfg, events[1..]);
    }
  }

  /** Every payment of every desk run was opened for its invoice's amount and has since run on its own events:
      it is verified if it holds money, and its large refunds were decided by two people. */
  lemma EveryPayment(cfg: Config, events: seq<DeskEvent>, i: nat)
    requires i < |RunDesk(EMPTY, cfg, events).payments|
    ensures var d := RunDesk(EMPTY, cfg, events);
            && Verified(d.payments[i]) && MakerChecker(d.payments[i], cfg.threshold)
            && exists invoice: nat, createdAt: Time, own: seq<PaymentEvent> ::
                 invoice < |d.invoices|
                 && d.payments[i] == Run(NewPayment(invoice, d.invoices[invoice].amount, createdAt), cfg, own)
  {
    hide Run, RunDesk, Verified, MakerChecker;
    var invoice, amount, createdAt, own := OpenedPayment(EMPTY, cfg, events, i);
    EveryPaidPaymentIsVerified(invoice, amount, createdAt, cfg, own);
    MakerCheckerAlways(invoice, amount, createdAt, cfg, own);
  }

  // ---- does the case show what its payments hold? ----

  /** Every payment that holds money is what its case shows. */
  predicate AllShown(d: Desk)
    requires WellFormed(d)
  {
    forall i :: 0 <= i < |d.payments| && HoldsMoney(d.payments[i].status) ==>
      d.cases[CaseOf(d, i)].paymentStatus == d.payments[i].status
  }

  /** The payment status a call writes on the case, if any. */
  function Shown(w: CaseWrite): Option<PaymentStatus> {
    match w
    case NoWrite => None
    case Show(status) => Some(status)
    case ShowPaidAndSchedule => Some(Paid)
  }

  /** Another payment of the same case holds money in a status other than this one. */
  predicate SiblingDiffers(d: Desk, i: nat, status: PaymentStatus)
    requires WellFormed(d) && i < |d.payments|
  {
    exists j :: 0 <= j < |d.payments| && j != i && CaseOf(d, j) == CaseOf(d, i)
             && HoldsMoney(d.payments[j].status) && d.payments[j].status != status
  }

  /** What a charge at some amount writes on the case. */
  function WrittenByCharge(p: Payment, kobo: Option<int>): Option<PaymentStatus> {
    if p.status == Paid then None else if kobo == Some(p.amount) then Some(Paid) else Some(ReconciliationRequired)
  }

  /** What a refund writes on the case: nothing unless the provider agrees and it fits what remains. */
  function WrittenByRefund(p: Payment, requested: int, providerOk: bool): Option<PaymentStatus> {
    if !providerOk || (p.status != Paid && p.status != PartiallyRefunded) || requested <= 0 || requested > Remaining(p) then None
    else if requested == Remaining(p) then Some(Refunded) else Some(PartiallyRefunded)
  }

  /** The payment status a call will write on the case, read off the payment and the call before it is made. */
  function Written(p: Payment, cfg: Config, e: PaymentEvent): Option<PaymentStatus> {
    match e
    case EvVerified(kobo, _) => WrittenByCharge(p, kobo)
    case EvFailed => None
    case EvRefund(_, amount, providerOk) =>
      var requested := if amount.Some? then amount.value else Remaining(p);
      if requested > cfg.threshold then None else WrittenByRefund(p, requested, providerOk)
    case EvApprove(request, actor, _, providerOk) =>
      if DecisionError(p, request, actor).Some? then None
      else WrittenByRefund(p, p.requests[request].amount, providerOk)
    case EvReject(_, _, _) => None
    case EvResolve(matched, _, _) =>
      if p.status != ReconciliationRequired then None else if matched then Some(Paid) else Some(Failed)
    case EvExpirySweep(_) => None
    case EvVerificationSweep(answer, now) =>
      if PollCandidate(p, cfg, now) && answer.ChargeSucceeded? then WrittenByCharge(p, answer.kobo) else None
  }

  /** That is exactly what the call writes. */
  lemma WrittenExactly(p: Payment, cfg: Config, e: PaymentEvent)
    ensures Shown(Step(p, cfg, e).toCase) == Written(p, cfg, e)
  {
    hide SumRefunds;
  }

  /** A call that writes on the case over a different status that a sibling holds. */
  predicate Overwrites(d: Desk, cfg: Config, e: DeskEvent)
    requires WellFormed(d)
  {
    && e.OnPayment? && e.payment < |d.payments|
    && var written := Written(d.payments[e.payment], cfg, e.event);
       written.Some? && SiblingDiffers(d, e.payment, written.value)
  }

  /** A payment that holds money after a call has just written that on its case, or held it all along. */
  lemma MoneyIsWritten(p: Payment, cfg: Config, e: PaymentEvent)
    ensures var o := Step(p, cfg, e);
            && (Shown(o.toCase) == None ==> !HoldsMoney(o.next.status) || o.next.status == p.status)
            && (Shown(o.toCase).Some? ==> Shown(o.toCase).value == o.next.status)
  {
  }

  lemma PaymentStepShown(d: Desk, cfg: Config, i: nat, e: PaymentEvent)
    requires WellFormed(d) && AllShown(d) && i < |d.payments|
    ensures AllShown(DeskStep(d, cfg, OnPayment(i, e))) <==> !Overwrites(d, cfg, OnPayment(i, e))
  {
    WrittenExactly(d.payments[i], cfg, e);
    hide Step, Written;
    var o, id := Step(d.payments[i], cfg, e), CaseOf(d, i);
    var next := DeskStep(d, cfg, OnPayment(i, e));
    MoneyIsWritten(d.payments[i], cfg, e);
    forall j | 0 <= j < |d.payments|
      ensures CaseOf(next, j) == CaseOf(d, j)
      ensures next.cases[CaseOf(d, j)].paymentStatus ==
                if CaseOf(d, j) == id && Shown(o.toCase).Some? then Shown(o.toCase).value
                else d.cases[CaseOf(d, j)].paymentStatus
    {
    }
    if Overwrites(d, cfg, OnPayment(i, e)) {
      var j :| 0 <= j < |d.payments| && j != i && CaseOf(d, j) == id
               && HoldsMoney(d.payments[j].status) && d.payments[j].status != Shown(o.toCase).value;
      assert next.payments[j] == d.payments[j];
    } else {
      forall j | 0 <= j < |next.payments| && HoldsMoney(next.payments[j].status)
        ensures next.cases[CaseOf(next, j)].paymentStatus == next.payments[j].status
      {
        if j != i {
          assert next.payments[j] == d.payments[j];
          assert Shown(o.toCase).Some? && CaseOf(d, j) == id ==> d.payments[j].status == Shown(o.toCase).value;
        }
      }
    }
  }

  lemma OtherStepShown(d: Desk, cfg: Config, e: DeskEvent)
    requires WellFormed(d) && AllShown(d) && (e.OnPayment? ==> e.payment >= |d.payments|)
    ensures AllShown(DeskStep(d, cfg, e))
  {
    var next := DeskStep(d, cfg, e);
    forall j | 0 <= j < |next.payments| && HoldsMoney(next.payments[j].status)
      ensures next.cases[CaseOf(next, j)].paymentStatus == next.payments[j].status
    {
      assert j < |d.payments| && next.payments[j] == d.payments[j] && CaseOf(next, j) == CaseOf(d, j);
    }
  }

  predicate AlwaysShown(d: Desk, cfg: Config, events: seq<DeskEvent>)
    requires WellFormed(d)
    decreases |events|
  {
    AllShown(d) && (events == [] || AlwaysShown(DeskStep(d, cfg, events[0]), cfg, events[1..]))
  }

  predicate NeverOverwrites(d: Desk, cfg: Config, events: seq<DeskEvent>)
    requires WellFormed(d)
    decreases |events|
  {
    events == [] || (!Overwrites(d, cfg, events[0]) && NeverOverwrites(DeskStep(d, cfg, events[0]), cfg, events[1..]))
  }

  lemma {:induction false} ShownRuns(d: Desk, cfg: Config, events: seq<DeskEvent>)
    requires WellFormed(d) && AllShown(d)
    ensures AlwaysShown(d, cfg, events) <==> NeverOverwrites(d, cfg, events)
    decreases |events|
  {
    hide AllShown, Overwrites, DeskStep, WellFormed;
    if events != [] {
      StepShown(d, cfg, events[0]);
      var next := DeskStep(d, cfg, events[0]);
      if !Overwrites(d, cfg, events[0]) {
        ShownRuns(next, cfg, events[1..]);
      } else if events[1..] == [] {
        assert !AlwaysShown(next, cfg, []);
      }
    }
  }

  lemma StepShown(d: Desk, cfg: Config, e: DeskEvent)
    requires WellFormed(d) && AllShown(d)
    ensures AllShown(DeskStep(d, cfg, e)) <==> !Overwrites(d, cfg, e)
  {
    hide AllShown, DeskStep;
    if e.OnPayment? && e.payment < |d.payments| {
      PaymentStepShown(d, cfg, e.payment, e.event);
    } else {
      OtherStepShown(d, cfg, e);
    }
  }

  /** Over every run of the desk, each case shows the status of every payment of its that holds money if and only
      if no call writes one payment's status over a different one that another payment of the case holds. */
  lemma CasesShowTheirPayments(cfg: Config, events: seq<DeskEvent>)
    ensures AlwaysShown(EMPTY, cfg, events) <==> NeverOverwrites(EMPTY, cfg, events)
  {
    ShownRuns(EMPTY, cfg, events);
  }

  // ---- is an invoice charged once? ----

  /** The payment was verified or accepted by Finance, and not all of it has gone back, whatever its status says. */
  predicate Holds(p: Payment) {
    p.verifiedAt.Some? && SumRefunds(p.refunds) < p.amount
  }

  /** No two payments of one invoice hold money. */
  predicate HeldOnce(d: Desk) {
    forall i, j :: 0 <= i < j < |d.payments| && Holds(d.payments[i]) && Holds(d.payments[j]) ==>
      d.payments[i].invoice != d.payments[j].invoice
  }

  predicate HeldFor(d: Desk, invoice: nat) {
    exists i :: 0 <= i < |d.payments| && d.payments[i].invoice == invoice && Holds(d.payments[i])
  }

  /** A payment that does not read PAID is about to: a charge at its amount, or Finance accepting a mismatch. */
  predicate Pays(p: Payment, cfg: Config, e: PaymentEvent) {
    && p.status != Paid
    && (|| (e.EvVerified? && e.kobo == Some(p.amount))
        || (e.EvVerificationSweep? && PollCandidate(p, cfg, e.now) && e.answer == ChargeSucceeded(Some(p.amount)))
        || (e.EvResolve? && e.matched && p.status == ReconciliationRequired))
  }

  /** The amount a payment will be worth once paid. */
  function AmountPaid(p: Payment, e: PaymentEvent): nat {
    if e.EvResolve? && e.resolvedAmount.Some? && e.resolvedAmount.value != 0 then e.resolvedAmount.value else p.amount
  }

  /** A payment that holds nothing is about to be charged, on an invoice for which money is already held. */
  predicate ChargesAgain(d: Desk, cfg: Config, e: DeskEvent) {
    && e.OnPayment? && e.payment < |d.payments|
    && var p := d.payments[e.payment];
       !Holds(p) && Pays(p, cfg, e.event) && SumRefunds(p.refunds) < AmountPaid(p, e.event) && HeldFor(d, p.invoice)
  }

  lemma BecomesHeld(p: Payment, cfg: Config, e: PaymentEvent)
    requires !Holds(p)
    ensures Holds(Step(p, cfg, e).next) <==> Pays(p, cfg, e) && SumRefunds(p.refunds) < AmountPaid(p, e)
  {
    hide SumRefunds;
    RefundsGrow(p, cfg, e);
    var next := Step(p, cfg, e).next;
    if next.refunds != p.refunds {
      var r :| next.refunds == p.refunds + [r] && 0 < r.amount <= Remaining(p);
      SumAppend(p.refunds, r);
    }
  }

  lemma StepHeldOnce(d: Desk, cfg: Config, e: DeskEvent)
    requires WellFormed(d) && HeldOnce(d)
    ensures HeldOnce(DeskStep(d, cfg, e)) <==> !ChargesAgain(d, cfg, e)
  {
    hide Step, WriteCase;
    var next := DeskStep(d, cfg, e);
    if e.OnPayment? && e.payment < |d.payments| {
      var i, p := e.payment, d.payments[e.payment];
      if !Holds(p) {
        BecomesHeld(p, cfg, e.event);
      }
      hide Holds, Pays, AmountPaid;
      assert next.payments[i] == Step(p, cfg, e.event).next;
      if ChargesAgain(d, cfg, e) {
        var j :| 0 <= j < |d.payments| && d.payments[j].invoice == p.invoice && Holds(d.payments[j]);
        assert next.payments[j] == d.payments[j] && Holds(next.payments[i]);
        assert i < j || j < i;
      }
    } else if |next.payments| > |d.payments| {
      var p := OpenedByStep(d, cfg, e);
    }
  }

  predicate AlwaysHeldOnce(d: Desk, cfg: Config, events: seq<DeskEvent>)
    requires WellFormed(d)
    decreases |events|
  {
    HeldOnce(d) && (events == [] || AlwaysHeldOnce(DeskStep(d, cfg, events[0]), cfg, events[1..]))
  }

  predicate NeverChargesAgain(d: Desk, cfg: Config, events: seq<DeskEvent>)
    requires WellFormed(d)
    decreases |events|
  {
    events == [] || (!ChargesAgain(d, cfg, events[0]) && NeverChargesAgain(DeskStep(d, cfg, events[0]), cfg, events[1..]))
  }

  lemma {:induction false} HeldOnceRuns(d: Desk, cfg: Config, events: seq<DeskEvent>)
    requires WellFormed(d) && HeldOnce(d)
    ensures AlwaysHeldOnce(d, cfg, events) <==> NeverChargesAgain(d, cfg, events)
    decreases |events|
  {
    hide HeldOnce, ChargesAgain, DeskStep, WellFormed;
    if events != [] {
      StepHeldOnce(d, cfg, events[0]);
      var next := DeskStep(d, cfg, events[0]);
      if !ChargesAgain(d, cfg, events[0]) {
        HeldOnceRuns(next, cfg, events[1..]);
      } else if events[1..] == [] {
        assert !AlwaysHeldOnce(next, cfg, []);
      }
    }
  }

  /** Over every run, no invoice has money held for it by two payments if and only if no payment is charged on an
      invoice for which another one holds money. */
  lemma InvoicesChargedOnce(cfg: Config, events: seq<DeskEvent>)
    ensures AlwaysHeldOnce(EMPTY, cfg, events) <==> NeverChargesAgain(EMPTY, cfg, events)
  {
    HeldOnceRuns(EMPTY, cfg, events);
  }

  predicate Keeps(status: PaymentStatus) {
    status == Paid || status == PartiallyRefunded
  }

  /** What the statuses say while they can be trusted: a payment was verified exactly when it reads as holding money. */
  predicate Stamped(p: Payment) {
    p.amount > 0 && Settled(p) && (p.verifiedAt.Some? <==> HoldsMoney(p.status))
  }

  lemma StampedStep(p: Payment, cfg: Config, e: PaymentEvent)
    requires Stamped(p) && !LateWebhook(p, e)
    ensures Stamped(Step(p, cfg, e).next)
  {
    SettledStep(p, cfg, e);
    hide SumRefunds;
  }

  lemma {:induction false} StampedRun(p: Payment, cfg: Config, events: seq<PaymentEvent>)
    requires Stamped(p) && NoLateWebhook(p, cfg, events)
    ensures Stamped(Run(p, cfg, events))
    decreases |events|
  {
    hide Stamped, Step;
    if events != [] {
      StampedStep(p, cfg, events[0]);
      StampedRun(Step(p, cfg, events[0]).next, cfg, events[1..]);
    }
  }

  /** Until a late webhook, a payment holds money exactly when its status is PAID or PARTIALLY_REFUNDED. */
  lemma HeldByStatus(invoice: nat, amount: nat, createdAt: Time, cfg: Config, events: seq<PaymentEvent>)
    requires amount > 0 && NoLateWebhook(NewPayment(invoice, amount, createdAt), cfg, events)
    ensures var p := Run(NewPayment(invoice, amount, createdAt), cfg, events);
            Holds(p) <==> Keeps(p.status)
  {
    StampedRun(NewPayment(invoice, amount, createdAt), cfg, events);
  }

  /** Exactly when a checkout is opened, why it is refused otherwise, and the payment it leaves. The guard asks for a
      payment that reads PAID, so a checkout opened on an invoice for which money is held slips past a payment that
      holds it under another status. */
  lemma CheckoutGuard(d: Desk, actor: UserId, invoice: nat, now: Time, providerOk: bool)
    requires WellFormed(d)
    ensures var o := InitiateCall(d, actor, invoice, now, providerOk);
            && o.error == (if invoice >= |d.invoices| then Some(InvoiceNotFound)
                           else if d.cases[d.invoices[invoice].caseId].owner != actor then Some(NotAuthorised)
                           else if HasPaid(d, invoice) then Some(AlreadyPaid)
                           else if !providerOk then Some(ProviderFailed) else None)
            && (o.error.Some? ==> o.next == d)
            && (o.error.None? ==>
                  && o.next.cases == d.cases && o.next.invoices == d.invoices
                  && o.next.payments == d.payments + [Payment(invoice, d.invoices[invoice].amount, now, Pending, None, [], [])])
            && (o.error.None? && HeldFor(d, invoice) ==>
                  exists i :: 0 <= i < |d.payments| && d.payments[i].invoice == invoice
                           && Holds(d.payments[i]) && d.payments[i].status != Paid)
  {
    if HeldFor(d, invoice) && !HasPaid(d, invoice) {
      var i :| 0 <= i < |d.payments| && d.payments[i].invoice == invoice && Holds(d.payments[i]);
      assert d.payments[i].status != Paid;
    }
  }

  /** A call on a payment is refused for the payment's own reasons, or because there is none. */
  lemma PaymentCallRefused(d: Desk, cfg: Config, i: nat, e: PaymentEvent)
    requires WellFormed(d)
    ensures PaymentCall(d, cfg, i, e).error
         == if i >= |d.payments| then Some(PaymentNotFound) else PaymentRuns.WhyRefused(d.payments[i], cfg, e)
  {
    hide Step, Apply;
    if i < |d.payments| {
      PaymentRuns.RefusedExactly(d.payments[i], cfg, e);
    }
  }

  // ---- who schedules the case? ----

  /** A call on a payment moves its case exactly when it is a charge that pays the payment while the case awaits
      payment, and then only to scheduled; no other case is touched, and the case stays lawful. */
  lemma WhoSchedules(d: Desk, cfg: Config, i: nat, e: PaymentEvent)
    requires WellFormed(d) && i < |d.payments|
    ensures var id, next := CaseOf(d, i), DeskStep(d, cfg, OnPayment(i, e));
            && next.cases[id].state ==
                 (if Pays(d.payments[i], cfg, e) && !e.EvResolve? && d.cases[id].state.status == Machine.AwaitingPayment
                  then Cases.MoveTo(d.cases[id].state, Machine.Scheduled) else d.cases[id].state)
            && (forall other :: other in d.cases && other != id ==> next.cases[other] == d.cases[other])
            && (CaseRuns.CaseInvariant(d.cases[id].state) ==> CaseRuns.CaseInvariant(next.cases[id].state))
  {
    var p, id := d.payments[i], CaseOf(d, i);
    ChargeSchedules(p, cfg, e);
    hide Step, Pays;
    CaseRuns.TransitionMoves(d.cases[id].state, Machine.Scheduled);
  }

  lemma ChargeSchedules(p: Payment, cfg: Config, e: PaymentEvent)
    ensures Step(p, cfg, e).toCase == ShowPaidAndSchedule <==> Pays(p, cfg, e) && !e.EvResolve?
  {
  }

  function OnOne(i: nat, events: seq<PaymentEvent>): seq<DeskEvent> {
    if events == [] then [] else [OnPayment(i, events[0])] + OnOne(i, events[1..])
  }

  /** A payment accepted by Finance leaves the case awaiting payment, unlike a charge; and over any later events of
      that payment that record no refund, nothing moves the case either. */
  lemma FinanceLeavesCaseWaiting(d: Desk, cfg: Config, i: nat, e: PaymentEvent, later: seq<PaymentEvent>)
    requires WellFormed(d) && i < |d.payments| && Pays(d.payments[i], cfg, e)
    requires d.cases[CaseOf(d, i)].state.status == Machine.AwaitingPayment
    requires Run(Step(d.payments[i], cfg, e).next, cfg, later).refunds == d.payments[i].refunds
    ensures var final := RunDesk(DeskStep(d, cfg, OnPayment(i, e)), cfg, OnOne(i, later));
            i < |final.payments| && final.payments[i].status == Paid
            && final.cases.Keys == d.cases.Keys
            && (final.cases[CaseOf(d, i)].state.status == Machine.AwaitingPayment <==> e.EvResolve?)
  {
    var next := DeskStep(d, cfg, OnPayment(i, e));
    WhoSchedules(d, cfg, i, e);
    BecomesPaid(d.payments[i], cfg, e);
    RefundsGrow(d.payments[i], cfg, e);
    RefundsAppendOnly(d.payments[i], cfg, [e]);
    RunOne(d.payments[i], cfg, e);
    RefundsAppendOnly(Step(d.payments[i], cfg, e).next, cfg, later);
    hide RunDesk, Run, Step, OnOne;
    assert CaseOf(next, i) == CaseOf(d, i);
    PaidSchedulesNothing(next, cfg, i, later);
  }

  lemma {:induction false} PaidSchedulesNothing(d: Desk, cfg: Config, i: nat, events: seq<PaymentEvent>)
    requires WellFormed(d) && i < |d.payments| && d.payments[i].status == Paid
    requires Run(d.payments[i], cfg, events).refunds == d.payments[i].refunds
    ensures var final := RunDesk(d, cfg, OnOne(i, events));
            && i < |final.payments| && final.payments[i].status == Paid && final.cases.Keys == d.cases.Keys
            && final.cases[CaseOf(d, i)].state == d.cases[CaseOf(d, i)].state
    decreases |events|
  {
    if events != [] {
      var e := OnPayment(i, events[0]);
      var next := DeskStep(d, cfg, e);
      WhoSchedules(d, cfg, i, events[0]);
      PaidStep(d.payments[i], cfg, events[0]);
      RefundsAppendOnly(d.payments[i], cfg, [events[0]]);
      RunOne(d.payments[i], cfg, events[0]);
      RefundsAppendOnly(next.payments[i], cfg, events[1..]);
      hide Step, WriteCase;
      assert CaseOf(next, i) == CaseOf(d, i) && next.payments[i].status == Paid;
      PaidSchedulesNothing(next, cfg, i, events[1..]);
      assert OnOne(i, events)[1..] == OnOne(i, events[1..]);
    }
  }

  /** Once a refund is recorded a success webhook does schedule the case, money going out or not. */
  lemma LateWebhookSchedules(d: Desk, cfg: Config, i: nat, now: Time)
    requires WellFormed(d) && i < |d.payments|
    requires d.payments[i].status == PartiallyRefunded || d.payments[i].status == Refunded
    requires d.cases[CaseOf(d, i)].state.status == Machine.AwaitingPayment
    ensures var final := DeskStep(d, cfg, OnPayment(i, EvVerified(Some(d.payments[i].amount), now)));
            && CaseOf(d, i) in final.cases && final.cases[CaseOf(d, i)].state.status == Machine.Scheduled
            && final.payments[i].status == Paid
  {
    WhoSchedules(d, cfg, i, EvVerified(Some(d.payments[i].amount), now));
  }

  // ---- concrete runs ----

  /** Two checkouts opened on one unpaid invoice of 1000. */
  function CheckoutTwice(): seq<DeskEvent> {
    [OpenCase(7, 1, map[]), RaiseInvoice(7, 1000), Initiate(1, 0, 0, true), Initiate(1, 0, 0, true)]
  }

  /** The first checkout is charged in full, then the second one at some amount. */
  function ChargeBoth(kobo: int): seq<DeskEvent> {
    CheckoutTwice() + [OnPayment(0, EvVerified(Some(1000), 1))] + [OnPayment(1, EvVerified(Some(kobo), 2))]
  }

  function TwoCheckouts(shown: PaymentStatus, first: PaymentStatus, second: PaymentStatus): Desk {
    Desk(map[7 := CaseRow(1, shown, Cases.Created(map[]))], [Invoice(7, 1000)],
         [Opened(first, 1), Opened(second, 2)])
  }

  function Opened(status: PaymentStatus, paidAt: Time): Payment {
    NewPayment(0, 1000, 0).(status := status, verifiedAt := if status == Paid then Some(paidAt) else None)
  }

  lemma CheckoutTwiceRun(cfg: Config)
    ensures RunDesk(EMPTY, cfg, CheckoutTwice()) == TwoCheckouts(Pending, Pending, Pending)
  {
    var e := CheckoutTwice();
    var d1 := DeskStep(EMPTY, cfg, e[0]);
    var d2 := DeskStep(d1, cfg, e[1]);
    var d3 := DeskStep(d2, cfg, e[2]);
    assert !HasPaid(d2, 0) && d3 == d2.(payments := [Opened(Pending, 1)]);
    assert !HasPaid(d3, 0) && DeskStep(d3, cfg, e[3]) == TwoCheckouts(Pending, Pending, Pending);
    hide DeskStep;
    assert e == ([] + [e[0]]) + [e[1]] + [e[2]] + [e[3]];
    RunDeskNext(EMPTY, cfg, [], e[0]);
    RunDeskNext(EMPTY, cfg, [] + [e[0]], e[1]);
    RunDeskNext(EMPTY, cfg, [] + [e[0]] + [e[1]], e[2]);
    RunDeskNext(EMPTY, cfg, [] + [e[0]] + [e[1]] + [e[2]], e[3]);
  }

  lemma FirstCharge(cfg: Config)
    ensures DeskStep(TwoCheckouts(Pending, Pending, Pending), cfg, OnPayment(0, EvVerified(Some(1000), 1)))
         == TwoCheckouts(Paid, Paid, Pending)
  {
  }

  lemma SecondCharge(cfg: Config, kobo: int)
    ensures DeskStep(TwoCheckouts(Paid, Paid, Pending), cfg, OnPayment(1, EvVerified(Some(kobo), 2)))
         == if kobo == 1000 then TwoCheckouts(Paid, Paid, Paid)
            else TwoCheckouts(ReconciliationRequired, Paid, ReconciliationRequired)
  {
  }

  lemma ChargeTwice(cfg: Config, kobo: int)
    ensures RunDesk(EMPTY, cfg, ChargeBoth(kobo))
         == if kobo == 1000 then TwoCheckouts(Paid, Paid, Paid)
            else TwoCheckouts(ReconciliationRequired, Paid, ReconciliationRequired)
  {
    var first, second := OnPayment(0, EvVerified(Some(1000), 1)), OnPayment(1, EvVerified(Some(kobo), 2));
    hide DeskStep, CheckoutTwice, TwoCheckouts;
    FirstCharge(cfg);
    SecondCharge(cfg, kobo);
    CheckoutTwiceRun(cfg);
    RunDeskNext(EMPTY, cfg, CheckoutTwice(), first);
    RunDeskNext(EMPTY, cfg, CheckoutTwice() + [first], second);
  }

  /** The case can hide a paid payment: the other checkout is charged at a wrong amount. */
  lemma SiblingHidesPayment(cfg: Config)
    ensures var d := RunDesk(EMPTY, cfg, ChargeBoth(900));
            && |d.payments| == 2 && d.payments[0].status == Paid
            && 7 in d.cases && d.cases[7].paymentStatus == ReconciliationRequired
  {
    ChargeTwice(cfg, 900);
  }

  /** An invoice can be charged twice: both checkouts are charged in full. */
  lemma InvoicePaidTwice(cfg: Config)
    ensures var d := RunDesk(EMPTY, cfg, ChargeBoth(1000));
            && |d.payments| == 2 && d.payments[0].invoice == d.payments[1].invoice
            && d.payments[0].status == Paid && d.payments[1].status == Paid
            && Holds(d.payments[0]) && Holds(d.payments[1])
  {
    ChargeTwice(cfg, 1000);
  }

  /** One checkout is charged and one kobo goes back; perhaps a late failure webhook follows. The next checkout is
      opened and charged in full. */
  function ChargeAfterRefund(lateFailure: bool): seq<DeskEvent> {
    [OpenCase(7, 1, map[]), RaiseInvoice(7, 1000), Initiate(1, 0, 0, true)]
    + OnOne(0, FirstCharged(lateFailure)) + [Initiate(1, 0, 0, true)] + [OnPayment(1, EvVerified(Some(1000), 3))]
  }

  function FirstCharged(lateFailure: bool): seq<PaymentEvent> {
    [EvVerified(Some(1000), 0), EvRefund(1, Some(1), true)] + if lateFailure then [EvFailed] else []
  }

  lemma FirstChargedRun(cfg: Config, lateFailure: bool)
    requires cfg.threshold >= 1
    ensures var p := Run(NewPayment(0, 1000, 0), cfg, FirstCharged(lateFailure));
            Holds(p) && p.status == (if lateFailure then Failed else PartiallyRefunded) && p.invoice == 0
  {
    var p, refund := NewPayment(0, 1000, 0), Refund(1, 1);
    assert SumRefunds([]) == 0 && [] + [refund] == [refund];
    SumAppend([], refund);
    hide SumRefunds;
    var e, f := EvVerified(Some(1000), 0), EvRefund(1, Some(1), true);
    RunTwo(p, cfg, e, f);
    var repaid := p.(status := PartiallyRefunded, verifiedAt := Some(0), refunds := [refund]);
    assert Run(p, cfg, [e, f]) == repaid;
    if lateFailure {
      RunAppend(p, cfg, [e, f], [EvFailed]);
      RunOne(repaid, cfg, EvFailed);
    } else {
      assert [e, f] + [] == [e, f];
    }
  }

  /** The checkout guard can be passed while money is held, without any checkout opened in advance: after a partial
      refund, and after a late failure webhook too. Two payments of one invoice then hold money. */
  lemma RefundReopensCheckout(cfg: Config, lateFailure: bool)
    requires cfg.threshold >= 1
    ensures var d := RunDesk(EMPTY, cfg, ChargeAfterRefund(lateFailure));
            && |d.payments| == 2 && d.payments[0].invoice == d.payments[1].invoice
            && d.payments[0].status == (if lateFailure then Failed else PartiallyRefunded) && d.payments[1].status == Paid
            && Holds(d.payments[0]) && Holds(d.payments[1])
  {
    var own := FirstCharged(lateFailure);
    var open := [OpenCase(7, 1, map[]), RaiseInvoice(7, 1000), Initiate(1, 0, 0, true)];
    var d0 := Desk(map[7 := CaseRow(1, Pending, Cases.Created(map[]))], [Invoice(7, 1000)], [NewPayment(0, 1000, 0)]);
    OpenOne(cfg);
    FirstChargedRun(cfg, lateFailure);
    OneProjects(d0, cfg, own);
    hide RunDesk, Run, OnOne, FirstCharged, DeskStep, Holds;
    RunDeskAppend(EMPTY, cfg, open, OnOne(0, own));
    var before := open + OnOne(0, own);
    RunDeskNext(EMPTY, cfg, before, Initiate(1, 0, 0, true));
    RunDeskNext(EMPTY, cfg, before + [Initiate(1, 0, 0, true)], OnPayment(1, EvVerified(Some(1000), 3)));
    SecondCheckout(RunDesk(EMPTY, cfg, before), cfg);
  }

  lemma SecondCheckout(d: Desk, cfg: Config)
    requires WellFormed(d) && d.invoices == [Invoice(7, 1000)] && 7 in d.cases && d.cases[7].owner == 1
    requires |d.payments| == 1 && d.payments[0].invoice == 0 && d.payments[0].status != Paid
    ensures var final := DeskStep(DeskStep(d, cfg, Initiate(1, 0, 0, true)), cfg, OnPayment(1, EvVerified(Some(1000), 3)));
            && |final.payments| == 2 && final.payments[0] == d.payments[0]
            && final.payments[1].invoice == 0 && final.payments[1].status == Paid && Holds(final.payments[1])
  {
    assert !HasPaid(d, 0);
    assert SumRefunds([]) == 0;
    hide SumRefunds, WriteCase;
  }

  lemma OpenOne(cfg: Config)
    ensures RunDesk(EMPTY, cfg, [OpenCase(7, 1, map[]), RaiseInvoice(7, 1000), Initiate(1, 0, 0, true)])
         == Desk(map[7 := CaseRow(1, Pending, Cases.Created(map[]))], [Invoice(7, 1000)], [NewPayment(0, 1000, 0)])
  {
    var e := [OpenCase(7, 1, map[]), RaiseInvoice(7, 1000), Initiate(1, 0, 0, true)];
    var d1 := DeskStep(EMPTY, cfg, e[0]);
    var d2 := DeskStep(d1, cfg, e[1]);
    assert !HasPaid(d2, 0) && DeskStep(d2, cfg, e[2]).payments == [NewPayment(0, 1000, 0)];
    assert RunDesk(EMPTY, cfg, []) == EMPTY;
    hide DeskStep, RunDesk;
    assert e == ([] + [e[0]]) + [e[1]] + [e[2]];
    RunDeskNext(EMPTY, cfg, [], e[0]);
    RunDeskNext(EMPTY, cfg, [] + [e[0]], e[1]);
    RunDeskNext(EMPTY, cfg, [] + [e[0]] + [e[1]], e[2]);
  }

  lemma {:induction false} RunDeskAppend(d: Desk, cfg: Config, first: seq<DeskEvent>, rest: seq<DeskEvent>)
    requires WellFormed(d)
    ensures RunDesk(d, cfg, first + rest) == RunDesk(RunDesk(d, cfg, first), cfg, rest)
    decreases |first|
  {
    hide DeskStep, WellFormed;
    if first == [] {
      assert first + rest == rest;
    } else {
      assert (first + rest)[1..] == first[1..] + rest;
      RunDeskAppend(DeskStep(d, cfg, first[0]), cfg, first[1..], rest);
    }
  }

  /** Events of the only payment change nothing but that payment and the status and lifecycle of its case. */
  lemma {:induction false} OneProjects(d: Desk, cfg: Config, events: seq<PaymentEvent>)
    requires WellFormed(d) && |d.payments| == 1
    ensures var final := RunDesk(d, cfg, OnOne(0, events));
            && final.payments == [Run(d.payments[0], cfg, events)] && final.invoices == d.invoices
            && final.cases.Keys == d.cases.Keys
            && forall id :: id in d.cases ==> final.cases[id].owner == d.cases[id].owner
    decreases |events|
  {
    if events != [] {
      var e := OnPayment(0, events[0]);
      assert OnOne(0, events)[1..] == OnOne(0, events[1..]) && OnOne(0, events)[0] == e;
      var next := DeskStep(d, cfg, e);
      hide Step;
      assert next.payments == [Step(d.payments[0], cfg, events[0]).next];
      assert forall id :: id in d.cases ==> next.cases[id].owner == d.cases[id].owner;
      OneProjects(next, cfg, events[1..]);
    }
  }

  /** A case brought to AWAITING_PAYMENT, and a checkout opened on its invoice of 1000. */
  function Await(): seq<DeskEvent> {
    [OpenCase(7, 1, map[])] + Moves(Path()) + [RaiseInvoice(7, 1000)] + [Initiate(1, 0, 0, true)]
  }

  function Moves(to: seq<Machine.CaseStatus>): seq<DeskEvent> {
    if to == [] then [] else Moves(to[..|to| - 1]) + [OnCase(7, Cases.EvTransition(to[|to| - 1]))]
  }

  function AfterMoves(to: seq<Machine.CaseStatus>): Cases.CaseState {
    if to == [] then Cases.Created(map[])
    else Cases.ApplyTransition(AfterMoves(to[..|to| - 1]), to[|to| - 1]).next
  }

  function Awaiting(shown: PaymentStatus, state: Cases.CaseState, payments: seq<Payment>): Desk {
    Desk(map[7 := CaseRow(1, shown, state)], [Invoice(7, 1000)], payments)
  }

  lemma {:induction false} MovesRun(cfg: Config, to: seq<Machine.CaseStatus>)
    ensures RunDesk(EMPTY, cfg, [OpenCase(7, 1, map[])] + Moves(to))
         == Desk(map[7 := CaseRow(1, Pending, AfterMoves(to))], [], [])
  {
    var open := [OpenCase(7, 1, map[])];
    if to == [] {
      assert [] + open == open && open + [] == open;
      RunDeskNext(EMPTY, cfg, [], open[0]);
      assert RunDesk(EMPTY, cfg, []) == EMPTY;
    } else {
      var before, last := to[..|to| - 1], OnCase(7, Cases.EvTransition(to[|to| - 1]));
      MovesRun(cfg, before);
      assert open + Moves(to) == (open + Moves(before)) + [last];
      RunDeskNext(EMPTY, cfg, open + Moves(before), last);
    }
  }

  lemma MovedOn(path: seq<Machine.CaseStatus>, to: Machine.CaseStatus)
    requires Machine.IsValidTransition(AfterMoves(path).status, to)
    ensures AfterMoves(path + [to]).status == to
  {
    assert (path + [to])[..|path|] == path;
  }

  function Path(): seq<Machine.CaseStatus> {
    [] + [Machine.Submitted] + [Machine.UnderReview] + [Machine.Quoted] + [Machine.AwaitingPayment]
  }

  lemma PathAwaits()
    ensures AfterMoves(Path()).status == Machine.AwaitingPayment
  {
    assert AfterMoves([]).status == Machine.Draft;
    var p1 := [] + [Machine.Submitted];
    var p2 := p1 + [Machine.UnderReview];
    var p3 := p2 + [Machine.Quoted];
    assert Path() == p3 + [Machine.AwaitingPayment];
    hide AfterMoves, Path;
    MovedOn([], Machine.Submitted);
    MovedOn(p1, Machine.UnderReview);
    MovedOn(p2, Machine.Quoted);
    MovedOn(p3, Machine.AwaitingPayment);
  }

  lemma AwaitRun(cfg: Config)
    ensures RunDesk(EMPTY, cfg, Await()) == Awaiting(Pending, AfterMoves(Path()), [NewPayment(0, 1000, 0)])
  {
    hide AfterMoves, Moves, RunDesk, Path;
    MovesRun(cfg, Path());
    var moved, state := [OpenCase(7, 1, map[])] + Moves(Path()), AfterMoves(Path());
    RunDeskNext(EMPTY, cfg, moved, RaiseInvoice(7, 1000));
    RunDeskNext(EMPTY, cfg, moved + [RaiseInvoice(7, 1000)], Initiate(1, 0, 0, true));
    assert DeskStep(Desk(map[7 := CaseRow(1, Pending, state)], [], []), cfg, RaiseInvoice(7, 1000)) == Awaiting(Pending, state, []);
    assert !HasPaid(Awaiting(Pending, state, []), 0);
  }

  /** Finance can leave a paid case waiting: the charge reports 900, Finance accepts it, and the success webhook
      delivered again changes nothing. */
  lemma FinanceStrandsCase(cfg: Config)
    ensures var d := RunDesk(EMPTY, cfg, Await() + [OnPayment(0, EvVerified(Some(900), 1))]
                             + [OnPayment(0, EvResolve(true, Some(900), 2))] + [OnPayment(0, EvVerified(Some(900), 3))]);
            && |d.payments| == 1 && d.payments[0].status == Paid
            && 7 in d.cases && d.cases[7].paymentStatus == Paid && d.cases[7].state.status == Machine.AwaitingPayment
  {
    AwaitRun(cfg);
    PathAwaits();
    hide AfterMoves, Await, RunDesk, Path;
    var state := AfterMoves(Path());
    var p := NewPayment(0, 1000, 0);
    var flagged := p.(status := ReconciliationRequired);
    var paid := flagged.(amount := 900, status := Paid, verifiedAt := Some(2));
    RunDeskNext(EMPTY, cfg, Await(), OnPayment(0, EvVerified(Some(900), 1)));
    assert DeskStep(Awaiting(Pending, state, [p]), cfg, OnPayment(0, EvVerified(Some(900), 1)))
        == Awaiting(ReconciliationRequired, state, [flagged]);
    RunDeskNext(EMPTY, cfg, Await() + [OnPayment(0, EvVerified(Some(900), 1))], OnPayment(0, EvResolve(true, Some(900), 2)));
    assert DeskStep(Awaiting(ReconciliationRequired, state, [flagged]), cfg, OnPayment(0, EvResolve(true, Some(900), 2)))
        == Awaiting(Paid, state, [paid]);
    RunDeskNext(EMPTY, cfg, Await() + [OnPayment(0, EvVerified(Some(900), 1))] + [OnPayment(0, EvResolve(true, Some(900), 2))],
                OnPayment(0, EvVerified(Some(900), 3)));
  }
}
