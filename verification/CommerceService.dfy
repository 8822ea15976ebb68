/** The payment methods themselves, over the payments, invoices and cases, one database write at a time. */
module CommerceService {
  import opened Wrappers
  import opened Payments
  import opened PaymentDesk
  import Machine = CaseStateMachine
  import Cases = CaseRecord

  /** 1 when a change of a payment moved it into a status, 0 otherwise. */
  function Became(before: Payment, after: Payment, to: PaymentStatus): nat {
    if before.status != to && after.status == to then 1 else 0
  }

  /** How many payments a change of the table moved into a status. */
  function Moved(before: seq<Payment>, after: seq<Payment>, to: PaymentStatus): nat
    requires |before| == |after|
  {
    if before == [] then 0
    else
      var n := |before| - 1;
      Moved(before[..n], after[..n], to) + Became(before[n], after[n], to)
  }

  lemma MovedNext(before: seq<Payment>, after: seq<Payment>, i: nat, to: PaymentStatus)
    requires |before| == |after| && i < |before|
    ensures Moved(before[..i + 1], after[..i + 1], to) == Moved(before[..i], after[..i], to) + Became(before[i], after[i], to)
  {
    assert before[..i + 1][..i] == before[..i] && after[..i + 1][..i] == after[..i];
  }

  lemma MovedNone(before: seq<Payment>, after: seq<Payment>, to: PaymentStatus)
    ensures Moved(before[..0], after[..0], to) == 0
  {
  }

  /** How many payments the verification sweep asks about. */
  function Candidates(payments: seq<Payment>, cfg: Config, now: Time): nat {
    if payments == [] then 0
    else
      var n := |payments| - 1;
      Candidates(payments[..n], cfg, now) + if PollCandidate(payments[n], cfg, now) then 1 else 0
  }

  lemma CandidatesNext(payments: seq<Payment>, i: nat, cfg: Config, now: Time)
    requires i < |payments|
    ensures Candidates(payments[..i + 1], cfg, now)
         == Candidates(payments[..i], cfg, now) + if PollCandidate(payments[i], cfg, now) then 1 else 0
  {
    hide PollCandidate;
    assert payments[..i + 1][..i] == payments[..i];
  }

  lemma CandidatesNone(payments: seq<Payment>, cfg: Config, now: Time)
    ensures Candidates(payments[..0], cfg, now) == 0
  {
  }

  /** The rows a change moved into a status. */
  function RowsMoved(before: seq<Payment>, after: seq<Payment>, to: PaymentStatus): set<nat>
    requires |before| == |after|
  {
    set i | 0 <= i < |before| && before[i].status != to && after[i].status == to
  }

  lemma RowsMovedNext(before: seq<Payment>, after: seq<Payment>, to: PaymentStatus)
    requires |before| == |after| > 0
    ensures var n := |before| - 1;
            RowsMoved(before, after, to)
            == RowsMoved(before[..n], after[..n], to) + if before[n].status != to && after[n].status == to then {n} else {}
    ensures |before| - 1 !in RowsMoved(before[..|before| - 1], after[..|before| - 1], to)
  {
  }

  /** The counters of a sweep are the numbers of rows it moved into a status. */
  lemma {:induction false} MovedIsCount(before: seq<Payment>, after: seq<Payment>, to: PaymentStatus)
    requires |before| == |after|
    ensures Moved(before, after, to) == |RowsMoved(before, after, to)|
  {
    if before != [] {
      var n := |before| - 1;
      MovedIsCount(before[..n], after[..n], to);
      RowsMovedNext(before, after, to);
      hide RowsMoved;
    }
  }

  /** The unresolved payments old enough to ask about and not yet stale. */
  function RowsAsked(payments: seq<Payment>, cfg: Config, now: Time): set<nat> {
    set i | 0 <= i < |payments| && payments[i].status in {Pending, Processing}
            && cfg.minAgeMs < now - payments[i].createdAt <= cfg.expiryMs
  }

  lemma RowsAskedNext(payments: seq<Payment>, cfg: Config, now: Time)
    requires payments != []
    ensures var n := |payments| - 1;
            && RowsAsked(payments, cfg, now)
               == RowsAsked(payments[..n], cfg, now) + (if PollCandidate(payments[n], cfg, now) then {n} else {})
            && n !in RowsAsked(payments[..n], cfg, now)
  {
  }

  lemma {:induction false} CandidatesIsCount(payments: seq<Payment>, cfg: Config, now: Time)
    ensures Candidates(payments, cfg, now) == |RowsAsked(payments, cfg, now)|
  {
    if payments != [] {
      CandidatesIsCount(payments[..|payments| - 1], cfg, now);
      RowsAskedNext(payments, cfg, now);
      hide RowsAsked, PollCandidate;
    }
  }

  class PaymentTable {
    const cfg: Config
    var cases: map<CaseId, CaseRow>
    var invoices: seq<Invoice>
    var payments: seq<Payment>

    function State(): Desk
      reads this
    {
      Desk(cases, invoices, payments)
    }

    constructor (cfg: Config, cases: map<CaseId, CaseRow>, invoices: seq<Invoice>)
      requires WellFormed(Desk(cases, invoices, []))
      ensures this.cfg == cfg && State() == Desk(cases, invoices, []) && WellFormed(State())
    {
      this.cfg, this.cases, this.invoices, this.payments := cfg, cases, invoices, [];
    }

    /** The case update that follows a payment update. */
    method SetCasePaymentStatus(id: CaseId, status: PaymentStatus)
      requires id in cases
      modifies this`cases
      ensures cases == old(cases)[id := old(cases)[id].(paymentStatus := status)]
    {
      cases := cases[id := cases[id].(paymentStatus := status)];
    }

    method InitiatePayment(actor: UserId, invoice: nat, now: Time, providerOk: bool) returns (error: Option<PaymentError>)
      requires WellFormed(State())
      modifies this
      ensures WellFormed(State())
      ensures DeskOutcome(State(), error) == InitiateCall(old(State()), actor, invoice, now, providerOk)
    {
      if invoice >= |invoices| {
        return Some(InvoiceNotFound);
      }
      if cases[invoices[invoice].caseId].owner != actor {
        return Some(NotAuthorised);
      }
      var alreadyPaid := exists i :: 0 <= i < |payments| && payments[i].invoice == invoice && payments[i].status == Paid;
      assert alreadyPaid <==> HasPaid(State(), invoice);
      if alreadyPaid {
        return Some(AlreadyPaid);
      }
      if !providerOk {
        return Some(ProviderFailed);
      }
      payments := payments + [Payment(invoice, invoices[invoice].amount, now, Pending, None, [], [])];
      return None;
    }

    method HandleVerified(i: nat, kobo: Option<int>, now: Time) returns (error: Option<PaymentError>)
      requires WellFormed(State())
      modifies this
      ensures WellFormed(State())
      ensures DeskOutcome(State(), error) == PaymentCall(old(State()), cfg, i, EvVerified(kobo, now))
    {
      if i >= |payments| {
        return Some(PaymentNotFound);
      }
      var payment := payments[i];
      var id := invoices[payment.invoice].caseId;
      if kobo != Some(payment.amount) {
        if payment.status != Paid {
          payments := payments[i := payment.(status := ReconciliationRequired)];
          SetCasePaymentStatus(id, ReconciliationRequired);
        }
        return Some(AmountMismatch);
      }
      if payment.status == Paid {
        return None;
      }
      payments := payments[i := payment.(status := Paid, verifiedAt := Some(now))];
      SetCasePaymentStatus(id, Paid);
      if cases[id].state.status == Machine.AwaitingPayment {
        var o := Cases.ApplyTransition(cases[id].state, Machine.Scheduled);
        assert o.error.None?;
        cases := cases[id := cases[id].(state := o.next)];
      }
      return None;
    }

    method HandleFailed(i: nat) returns (error: Option<PaymentError>)
      requires WellFormed(State())
      modifies this
      ensures WellFormed(State())
      ensures DeskOutcome(State(), error) == PaymentCall(old(State()), cfg, i, EvFailed)
    {
      if i >= |payments| {
        return Some(PaymentNotFound);
      }
      if payments[i].status == Paid || payments[i].status == Failed {
        return None;
      }
      payments := payments[i := payments[i].(status := Failed)];
      return None;
    }

    method Execute(i: nat, actor: UserId, requested: int, providerOk: bool) returns (error: Option<PaymentError>)
      requires WellFormed(State()) && i < |payments|
      modifies this
      ensures var o := ExecuteRefund(old(payments)[i], actor, requested, providerOk);
              WellFormed(State()) && State() == Apply(old(State()), i, o) && error == o.error
    {
      var payment := payments[i];
      var refundedSoFar := payment.amount - Remaining(payment);
      if !providerOk {
        return Some(ProviderFailed);
      }
      payments := payments[i := payment.(refunds := payment.refunds + [Refund(requested, actor)])];
      var newStatus := if requested + refundedSoFar >= payment.amount then Refunded else PartiallyRefunded;
      payments := payments[i := payments[i].(status := newStatus)];
      SetCasePaymentStatus(invoices[payment.invoice].caseId, newStatus);
      return None;
    }

    method RequestRefund(i: nat, actor: UserId, amount: Option<int>, providerOk: bool) returns (error: Option<PaymentError>)
      requires WellFormed(State())
      modifies this
      ensures WellFormed(State())
      ensures DeskOutcome(State(), error) == PaymentCall(old(State()), cfg, i, EvRefund(actor, amount, providerOk))
    {
      if i >= |payments| {
        return Some(PaymentNotFound);
      }
      var payment := payments[i];
      if payment.status != Paid && payment.status != PartiallyRefunded {
        return Some(NotRefundable(payment.status));
      }
      var remaining := Remaining(payment);
      var requested := if amount.Some? then amount.value else remaining;
      if requested <= 0 || requested > remaining {
        return Some(RefundOutOfRange);
      }
      if requested > cfg.threshold {
        var request := RefundRequest(requested, actor, AwaitingDecision, None, None);
        payments := payments[i := payment.(requests := payment.requests + [request])];
        return None;
      }
      error := Execute(i, actor, requested, providerOk);
    }

    method Approve(i: nat, request: nat, actor: UserId, now: Time, providerOk: bool) returns (error: Option<PaymentError>)
      requires WellFormed(State())
      modifies this
      ensures WellFormed(State())
      ensures DeskOutcome(State(), error) == PaymentCall(old(State()), cfg, i, EvApprove(request, actor, now, providerOk))
    {
      if i >= |payments| {
        return Some(PaymentNotFound);
      }
      var payment := payments[i];
      if request >= |payment.requests| {
        return Some(RequestNotFound);
      }
      var refundRequest := payment.requests[request];
      if refundRequest.status != AwaitingDecision {
        return Some(AlreadyDecided);
      }
      if refundRequest.requestedBy == actor {
        return Some(SamePerson);
      }
      if payment.status != Paid && payment.status != PartiallyRefunded {
        return Some(NotRefundable(payment.status));
      }
      var requested := refundRequest.amount;
      if requested <= 0 || requested > Remaining(payment) {
        return Some(RefundOutOfRange);
      }
      error := Execute(i, actor, requested, providerOk);
      if error.Some? {
        return;
      }
      var approved := refundRequest.(status := Approved, decidedBy := Some(actor), decidedAt := Some(now));
      payments := payments[i := payments[i].(requests := payments[i].requests[request := approved])];
    }

    method Reject(i: nat, request: nat, actor: UserId, now: Time) returns (error: Option<PaymentError>)
      requires WellFormed(State())
      modifies this
      ensures WellFormed(State())
      ensures DeskOutcome(State(), error) == PaymentCall(old(State()), cfg, i, EvReject(request, actor, now))
    {
      if i >= |payments| {
        return Some(PaymentNotFound);
      }
      var payment := payments[i];
      if request >= |payment.requests| {
        return Some(RequestNotFound);
      }
      var refundRequest := payment.requests[request];
      if refundRequest.status != AwaitingDecision {
        return Some(AlreadyDecided);
      }
      if refundRequest.requestedBy == actor {
        return Some(SamePerson);
      }
      var rejected := refundRequest.(status := Rejected, decidedBy := Some(actor), decidedAt := Some(now));
      payments := payments[i := payment.(requests := payment.requests[request := rejected])];
      return None;
    }

    method Resolve(i: nat, matched: bool, resolvedAmount: Option<nat>, now: Time) returns (error: Option<PaymentError>)
      requires WellFormed(State())
      modifies this
      ensures WellFormed(State())
      ensures DeskOutcome(State(), error) == PaymentCall(old(State()), cfg, i, EvResolve(matched, resolvedAmount, now))
    {
      if i >= |payments| {
        return Some(PaymentNotFound);
      }
      var payment := payments[i];
      if payment.status != ReconciliationRequired {
        return Some(NotAwaitingReconciliation);
      }
      var newStatus := if matched then Paid else Failed;
      payment := payment.(status := newStatus);
      if matched && resolvedAmount.Some? && resolvedAmount.value != 0 {
        payment := payment.(amount := resolvedAmount.value);
      }
      if newStatus == Paid {
        payment := payment.(verifiedAt := Some(now));
      }
      payments := payments[i := payment];
      SetCasePaymentStatus(invoices[payment.invoice].caseId, newStatus);
      return None;
    }

    method ExpirePayment(i: nat, now: Time) returns (expired: nat)
      requires WellFormed(State()) && i < |payments|
      modifies this`payments
      ensures State() == DeskStep(old(State()), cfg, OnPayment(i, EvExpirySweep(now))) && WellFormed(State())
      ensures payments == old(payments)[i := Expire(old(payments)[i], cfg, now)]
      ensures expired == Became(old(payments)[i], payments[i], Expired)
    {
      SilentTurn(State(), cfg, i, EvExpirySweep(now));
      expired := 0;
      if Stale(payments[i], cfg, now) {
        payments := payments[i := payments[i].(status := Expired)];
        expired := 1;
      }
    }

    /** Expires every unresolved payment older than the window, and counts them; no case is written. */
    method RunExpirySweep(now: Time) returns (expired: nat)
      requires WellFormed(State())
      modifies this`payments
      ensures State() == RunDesk(old(State()), cfg, ExpiryTurns(|old(payments)|, now)) && WellFormed(State())
      ensures |payments| == |old(payments)|
      ensures forall i :: 0 <= i < |payments| ==> payments[i] == Expire(old(payments)[i], cfg, now)
      ensures forall i :: 0 <= i < |payments| ==> !Stale(payments[i], cfg, now)
      ensures expired == Moved(old(payments), payments, Expired)
    {
      hide Moved, RunDesk, DeskStep, WellFormed, Became;
      ghost var before, turns := payments, ExpiryTurns(|payments|, now);
      expired := 0;
      StartRun(State(), cfg, turns);
      MovedNone(before, payments, Expired);
      for i := 0 to |payments|
        invariant |payments| == |before| && WellFormed(State())
        invariant forall j :: 0 <= j < i ==> payments[j] == Expire(before[j], cfg, now)
        invariant forall j :: i <= j < |payments| ==> payments[j] == before[j]
        invariant expired == Moved(before[..i], payments[..i], Expired)
        invariant State() == RunDesk(old(State()), cfg, turns[..i])
      {
        ghost var done := payments[..i];
        NextTurn(old(State()), cfg, turns, i);
        var one := ExpirePayment(i, now);
        expired := expired + one;
        assert payments[..i] == done;
        MovedNext(before, payments, i, Expired);
      }
      assert before[..|before|] == before && payments[..|before|] == payments && turns[..|turns|] == turns;
    }

    /** The turn of one payment in the verification sweep, and which counter it raises. */
    method PollPayment(i: nat, now: Time, answer: ProviderAnswer)
      returns (checked: nat, processing: nat, paid: nat, failed: nat)
      requires WellFormed(State()) && i < |payments|
      modifies this
      ensures State() == DeskStep(old(State()), cfg, OnPayment(i, EvVerificationSweep(answer, now))) && WellFormed(State())
      ensures payments == old(payments)[i := Poll(old(payments)[i], cfg, answer, now).next]
      ensures checked == if PollCandidate(old(payments)[i], cfg, now) then 1 else 0
      ensures processing == Became(old(payments)[i], payments[i], Processing)
      ensures paid == Became(old(payments)[i], payments[i], Paid)
      ensures failed == Became(old(payments)[i], payments[i], Failed)
    {
      hide WriteCase;
      SilentTurn(State(), cfg, i, EvVerificationSweep(answer, now));
      checked, processing, paid, failed := 0, 0, 0, 0;
      var payment := payments[i];
      if !PollCandidate(payment, cfg, now) {
        return;
      }
      checked := 1;
      match answer {
        case Unreachable =>
        case NoReport =>
        case ChargeSucceeded(kobo) =>
          var error := HandleVerified(i, kobo, now);
          if error.None? {
            paid := 1;
          }
        case ChargeFailed =>
          var _ := HandleFailed(i);
          failed := 1;
        case InFlight =>
          if payment.status != Processing {
            payments := payments[i := payment.(status := Processing)];
            processing := 1;
          }
      }
    }

    /** Polls the provider about every unresolved payment inside the two windows; answers that fail to
        apply are logged and skipped. */
    method RunVerificationSweep(now: Time, answers: seq<ProviderAnswer>)
      returns (checked: nat, processing: nat, paid: nat, failed: nat)
      requires WellFormed(State()) && |answers| == |payments|
      modifies this
      ensures State() == RunDesk(old(State()), cfg, PollTurns(answers, now)) && WellFormed(State())
      ensures |payments| == |old(payments)|
      ensures forall i :: 0 <= i < |payments| ==> payments[i] == Poll(old(payments)[i], cfg, answers[i], now).next
      ensures checked == Candidates(old(payments), cfg, now)
      ensures processing == Moved(old(payments), payments, Processing)
      ensures paid == Moved(old(payments), payments, Paid)
      ensures failed == Moved(old(payments), payments, Failed)
    {
      hide Moved, Candidates, RunDesk, DeskStep, WellFormed, Became, Poll, PollCandidate;
      ghost var before, turns := payments, PollTurns(answers, now);
      checked, processing, paid, failed := 0, 0, 0, 0;
      CandidatesNone(before, cfg, now);
      StartRun(State(), cfg, turns);
      forall to { MovedNone(before, payments, to); }
      for i := 0 to |answers|
        invariant |payments| == |before| && WellFormed(State())
        invariant forall j :: 0 <= j < i ==> payments[j] == Poll(before[j], cfg, answers[j], now).next
        invariant forall j :: i <= j < |payments| ==> payments[j] == before[j]
        invariant checked == Candidates(before[..i], cfg, now)
        invariant processing == Moved(before[..i], payments[..i], Processing)
        invariant paid == Moved(before[..i], payments[..i], Paid)
        invariant failed == Moved(before[..i], payments[..i], Failed)
        invariant State() == RunDesk(old(State()), cfg, turns[..i])
      {
        ghost var done := payments[..i];
        NextTurn(old(State()), cfg, turns, i);
        var asked, toProcessing, toPaid, toFailed := PollPayment(i, now, answers[i]);
        checked := checked + asked;
        CandidatesNext(before, i, cfg, now);
        processing, paid, failed := processing + toProcessing, paid + toPaid, failed + toFailed;
        assert payments[..i] == done;
        MovedNext(before, payments, i, Processing);
        MovedNext(before, payments, i, Paid);
        MovedNext(before, payments, i, Failed);
      }
      assert before[..|before|] == before && payments[..|before|] == payments && turns[..|turns|] == turns;
    }
  }

  lemma StartRun(d: Desk, cfg: Config, turns: seq<DeskEvent>)
    requires WellFormed(d)
    ensures RunDesk(d, cfg, turns[..0]) == d
  {
  }

  lemma NextTurn(d: Desk, cfg: Config, turns: seq<DeskEvent>, i: nat)
    requires WellFormed(d) && i < |turns|
    ensures RunDesk(d, cfg, turns[..i + 1]) == DeskStep(RunDesk(d, cfg, turns[..i]), cfg, turns[i])
  {
    assert turns[..i + 1] == turns[..i] + [turns[i]];
    RunDeskNext(d, cfg, turns[..i], turns[i]);
  }

  /** A turn that writes no case changes the payment's row and nothing else. */
  lemma SilentTurn(d: Desk, cfg: Config, i: nat, e: PaymentEvent)
    requires WellFormed(d) && i < |d.payments|
    ensures Step(d.payments[i], cfg, e).toCase == NoWrite ==>
              DeskStep(d, cfg, OnPayment(i, e)) == d.(payments := d.payments[i := Step(d.payments[i], cfg, e).next])
  {
    hide Step;
    var id := CaseOf(d, i);
    assert d.cases[id := d.cases[id]] == d.cases;
  }
}
