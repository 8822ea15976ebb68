/** Many payments over the invoices of many cases: every payment of a case writes the one payment status the
    case row holds (backend/src/commerce/commerce.service.ts). */
module PaymentDesk {
  import opened Wrappers
  import opened Payments
  import Machine = CaseStateMachine
  import Cases = CaseRecord

  type CaseId = nat

  datatype Invoice = Invoice(caseId: CaseId, amount: nat)

  /** A case as payments see it: its customer, the payment status shared by all its payments, and its lifecycle. */
  datatype CaseRow = CaseRow(owner: UserId, paymentStatus: PaymentStatus, state: Cases.CaseState)

  datatype Desk = Desk(cases: map<CaseId, CaseRow>, invoices: seq<Invoice>, payments: seq<Payment>)

  datatype DeskOutcome = DeskOutcome(next: Desk, error: Option<PaymentError>)

  const EMPTY := Desk(map[], [], [])

  predicate WellFormed(d: Desk) {
    && (forall i :: 0 <= i < |d.payments| ==> d.payments[i].invoice < |d.invoices|)
    && (forall k :: 0 <= k < |d.invoices| ==> d.invoices[k].caseId in d.cases)
  }

  function CaseOf(d: Desk, i: nat): CaseId
    requires WellFormed(d) && i < |d.payments|
  {
    d.invoices[d.payments[i].invoice].caseId
  }

  function WriteCase(c: CaseRow, w: CaseWrite): CaseRow {
    match w
    case NoWrite => c
    case Show(status) => c.(paymentStatus := status)
    case ShowPaidAndSchedule =>
      var paid := c.(paymentStatus := Paid);
      if c.state.status != Machine.AwaitingPayment then paid
      else paid.(state := Cases.ApplyTransition(c.state, Machine.Scheduled).next)
  }

  /** The two rows a call on a payment writes: the payment, and the case behind its invoice. */
  function Apply(d: Desk, i: nat, o: Outcome): (next: Desk)
    requires WellFormed(d) && i < |d.payments| && o.next.invoice == d.payments[i].invoice
    ensures WellFormed(next) && next.invoices == d.invoices && next.cases.Keys == d.cases.Keys
  {
    var id := CaseOf(d, i);
    d.(payments := d.payments[i := o.next], cases := d.cases[id := WriteCase(d.cases[id], o.toCase)])
  }

  function PaymentCall(d: Desk, cfg: Config, i: nat, e: PaymentEvent): DeskOutcome
    requires WellFormed(d)
  {
    if i >= |d.payments| then DeskOutcome(d, Some(PaymentNotFound))
    else
      var o := Step(d.payments[i], cfg, e);
      DeskOutcome(Apply(d, i, o), o.error)
  }

  predicate HasPaid(d: Desk, invoice: nat) {
    exists i :: 0 <= i < |d.payments| && d.payments[i].invoice == invoice && d.payments[i].status == Paid
  }

  /** A checkout is opened by the invoice's customer, unless a payment of the invoice is already paid. */
  function InitiateCall(d: Desk, actor: UserId, invoice: nat, now: Time, providerOk: bool): DeskOutcome
    requires WellFormed(d)
  {
    if invoice >= |d.invoices| then DeskOutcome(d, Some(InvoiceNotFound))
    else if d.cases[d.invoices[invoice].caseId].owner != actor then DeskOutcome(d, Some(NotAuthorised))
    else if HasPaid(d, invoice) then DeskOutcome(d, Some(AlreadyPaid))
    else if !providerOk then DeskOutcome(d, Some(ProviderFailed))
    else DeskOutcome(d.(payments := d.payments + [NewPayment(invoice, d.invoices[invoice].amount, now)]), None)
  }

  /** One call, or one turn of a sweep. Other services open cases, raise invoices and move cases. */
  datatype DeskEvent =
    | OpenCase(id: CaseId, owner: UserId, checklist: map<Cases.TaskId, Cases.Task>)
    | OnCase(id: CaseId, move: Cases.CaseEvent)
    | RaiseInvoice(id: CaseId, amount: nat)
    | Initiate(actor: UserId, invoice: nat, now: Time, providerOk: bool)
    | OnPayment(payment: nat, event: PaymentEvent)

  function DeskStep(d: Desk, cfg: Config, e: DeskEvent): (next: Desk)
    requires WellFormed(d)
    ensures WellFormed(next)
  {
    match e
    case OpenCase(id, owner, checklist) =>
      if id in d.cases then d else d.(cases := d.cases[id := CaseRow(owner, Pending, Cases.Created(checklist))])
    case OnCase(id, move) =>
      if id !in d.cases then d
      else d.(cases := d.cases[id := d.cases[id].(state := Cases.Step(d.cases[id].state, move).next)])
    case RaiseInvoice(id, amount) => if id in d.cases then d.(invoices := d.invoices + [Invoice(id, amount)]) else d
    case Initiate(actor, invoice, now, providerOk) => InitiateCall(d, actor, invoice, now, providerOk).next
    case OnPayment(i, event) => PaymentCall(d, cfg, i, event).next
  }

  function RunDesk(d: Desk, cfg: Config, events: seq<DeskEvent>): (final: Desk)
    requires WellFormed(d)
    ensures WellFormed(final)
    decreases |events|
  {
    if events == [] then d else RunDesk(DeskStep(d, cfg, events[0]), cfg, events[1..])
  }

  /** A sweep takes the payments one after another. */
  function ExpiryTurns(n: nat, now: Time): (turns: seq<DeskEvent>)
    ensures |turns| == n
  {
    seq(n, i requires 0 <= i < n => OnPayment(i, EvExpirySweep(now)))
  }

  function PollTurns(answers: seq<ProviderAnswer>, now: Time): (turns: seq<DeskEvent>)
    ensures |turns| == |answers|
  {
    seq(|answers|, i requires 0 <= i < |answers| => OnPayment(i, EvVerificationSweep(answers[i], now)))
  }

  lemma {:induction false} RunDeskNext(d: Desk, cfg: Config, events: seq<DeskEvent>, e: DeskEvent)
    requires WellFormed(d)
    ensures RunDesk(d, cfg, events + [e]) == DeskStep(RunDesk(d, cfg, events), cfg, e)
    decreases |events|
  {
    hide DeskStep, WellFormed;
    if events == [] {
      assert ([] + [e])[0] == e && ([] + [e])[1..] == [];
    } else {
      assert (events + [e])[1..] == events[1..] + [e] && (events + [e])[0] == events[0];
      RunDeskNext(DeskStep(d, cfg, events[0]), cfg, events[1..], e);
    }
  }
}
