/** Payments, refunds and the two payment sweeps (backend/src/commerce/commerce.service.ts). Amounts are kobo. */
module Payments {
  import opened Wrappers

  type UserId = nat
  type Time = int

  datatype PaymentStatus =
    | Pending | Processing | Paid | Failed | Expired | Refunded | PartiallyRefunded | ReconciliationRequired

  datatype Refund = Refund(amount: int, actor: UserId)

  datatype RequestStatus = AwaitingDecision | Approved | Rejected

  datatype RefundRequest = RefundRequest(
    amount: int,
    requestedBy: UserId,
    status: RequestStatus,
    decidedBy: Option<UserId>,
    decidedAt: Option<Time>)

  /** A payment row with its refunds and refund requests. */
  datatype Payment = Payment(
    invoice: nat,
    amount: nat,
    createdAt: Time,
    status: PaymentStatus,
    verifiedAt: Option<Time>,
    refunds: seq<Refund>,
    requests: seq<RefundRequest>)

  /** Operator settings: the refund approval threshold and the two payment windows. */
  datatype Config = Config(threshold: int, expiryMs: nat, minAgeMs: nat)

  datatype PaymentError =
    | InvoiceNotFound
    | NotAuthorised
    | AlreadyPaid
    | PaymentNotFound
    | AmountMismatch
    | NotRefundable(status: PaymentStatus)
    | RefundOutOfRange
    | ProviderFailed
    | RequestNotFound
    | AlreadyDecided
    | SamePerson
    | NotAwaitingReconciliation

  /** What a call writes on the payment's case: nothing, the case's payment status, or the payment status
      together with the move to scheduled that a charge verified by the provider brings. */
  datatype CaseWrite = NoWrite | Show(status: PaymentStatus) | ShowPaidAndSchedule

  /** The payment row after a call, the write on its case, and the error thrown, if any. */
  datatype Outcome = Outcome(next: Payment, toCase: CaseWrite, error: Option<PaymentError>)

  function Refuse(p: Payment, error: PaymentError): Outcome {
    Outcome(p, NoWrite, Some(error))
  }

  function NewPayment(invoice: nat, amount: nat, createdAt: Time): Payment {
    Payment(invoice, amount, createdAt, Pending, None, [], [])
  }

  function SumRefunds(refunds: seq<Refund>): int {
    if refunds == [] then 0 else SumRefunds(refunds[..|refunds| - 1]) + refunds[|refunds| - 1].amount
  }

  function Remaining(p: Payment): int {
    p.amount - SumRefunds(p.refunds)
  }

  /** A verified charge: a mismatch is flagged for Finance and reported, except on a paid payment. */
  function VerifiedCharge(p: Payment, kobo: Option<int>, now: Time): Outcome {
    if kobo != Some(p.amount) then
      if p.status == Paid then Refuse(p, AmountMismatch)
      else Outcome(p.(status := ReconciliationRequired), Show(ReconciliationRequired), Some(AmountMismatch))
    else if p.status == Paid then Outcome(p, NoWrite, None)
    else Outcome(p.(status := Paid, verifiedAt := Some(now)), ShowPaidAndSchedule, None)
  }

  /** A failed charge never touches the case. */
  function FailedCharge(p: Payment): Outcome {
    Outcome(if p.status == Paid || p.status == Failed then p else p.(status := Failed), NoWrite, None)
  }

  /** The provider is asked first; a refusal leaves no trace. */
  function ExecuteRefund(p: Payment, actor: UserId, requested: int, providerOk: bool): Outcome {
    if !providerOk then Refuse(p, ProviderFailed)
    else
      var refunded := p.amount - Remaining(p);
      var status := if requested + refunded >= p.amount then Refunded else PartiallyRefunded;
      Outcome(p.(refunds := p.refunds + [Refund(requested, actor)], status := status), Show(status), None)
  }

  predicate Refundable(p: Payment) {
    p.status == Paid || p.status == PartiallyRefunded
  }

  function RefundPayment(p: Payment, cfg: Config, actor: UserId, amount: Option<int>, providerOk: bool): Outcome {
    var requested := if amount.Some? then amount.value else Remaining(p);
    if !Refundable(p) then Refuse(p, NotRefundable(p.status))
    else if requested <= 0 || requested > Remaining(p) then Refuse(p, RefundOutOfRange)
    else if requested > cfg.threshold then
      Outcome(p.(requests := p.requests + [RefundRequest(requested, actor, AwaitingDecision, None, None)]), NoWrite, None)
    else ExecuteRefund(p, actor, requested, providerOk)
  }

  /** Why a request cannot be decided by this actor, if it cannot. */
  function DecisionError(p: Payment, request: nat, actor: UserId): Option<PaymentError> {
    if request >= |p.requests| then Some(RequestNotFound)
    else if p.requests[request].status != AwaitingDecision then Some(AlreadyDecided)
    else if p.requests[request].requestedBy == actor then Some(SamePerson)
    else None
  }

  function Decided(r: RefundRequest, status: RequestStatus, actor: UserId, now: Time): RefundRequest {
    r.(status := status, decidedBy := Some(actor), decidedAt := Some(now))
  }

  function ApproveRequest(p: Payment, request: nat, actor: UserId, now: Time, providerOk: bool): Outcome {
    var problem := DecisionError(p, request, actor);
    if problem.Some? then Refuse(p, problem.value)
    else if !Refundable(p) then Refuse(p, NotRefundable(p.status))
    else
      var requested := p.requests[request].amount;
      if requested <= 0 || requested > Remaining(p) then Refuse(p, RefundOutOfRange)
      else
        var o := ExecuteRefund(p, actor, requested, providerOk);
        if o.error.Some? then o
        else o.(next := o.next.(requests := p.requests[request := Decided(p.requests[request], Approved, actor, now)]))
  }

  function RejectRequest(p: Payment, request: nat, actor: UserId, now: Time): Outcome {
    var problem := DecisionError(p, request, actor);
    if problem.Some? then Refuse(p, problem.value)
    else
      Outcome(p.(requests := p.requests[request := Decided(p.requests[request], Rejected, actor, now)]), NoWrite, None)
  }

  /** Finance accepts the received amount, optionally correcting the payment, or rejects the charge. */
  function ResolveReconciliation(p: Payment, matched: bool, resolvedAmount: Option<nat>, now: Time): Outcome {
    if p.status != ReconciliationRequired then Refuse(p, NotAwaitingReconciliation)
    else if !matched then Outcome(p.(status := Failed), Show(Failed), None)
    else
      var amount := if resolvedAmount.Some? && resolvedAmount.value != 0 then resolvedAmount.value else p.amount;
      Outcome(p.(amount := amount, status := Paid, verifiedAt := Some(now)), Show(Paid), None)
  }

  predicate Unresolved(p: Payment) {
    p.status == Pending || p.status == Processing
  }

  predicate Stale(p: Payment, cfg: Config, now: Time) {
    Unresolved(p) && p.createdAt < now - cfg.expiryMs
  }

  function Expire(p: Payment, cfg: Config, now: Time): Payment {
    if Stale(p, cfg, now) then p.(status := Expired) else p
  }

  /** What the provider answers when asked about a reference. */
  datatype ProviderAnswer = Unreachable | NoReport | ChargeSucceeded(kobo: Option<int>) | ChargeFailed | InFlight

  predicate PollCandidate(p: Payment, cfg: Config, now: Time) {
    Unresolved(p) && now - cfg.expiryMs <= p.createdAt < now - cfg.minAgeMs
  }

  function Poll(p: Payment, cfg: Config, answer: ProviderAnswer, now: Time): Outcome {
    if !PollCandidate(p, cfg, now) then Outcome(p, NoWrite, None)
    else
      match answer
      case Unreachable => Outcome(p, NoWrite, None)
      case NoReport => Outcome(p, NoWrite, None)
      case ChargeSucceeded(kobo) => VerifiedCharge(p, kobo, now)
      case ChargeFailed => FailedCharge(p)
      case InFlight => Outcome(if p.status != Processing then p.(status := Processing) else p, NoWrite, None)
  }

  /** One call, or one turn of a sweep, on one payment. */
  datatype PaymentEvent =
    | EvVerified(kobo: Option<int>, now: Time)
    | EvFailed
    | EvRefund(actor: UserId, amount: Option<int>, providerOk: bool)
    | EvApprove(request: nat, actor: UserId, now: Time, providerOk: bool)
    | EvReject(request: nat, actor: UserId, now: Time)
    | EvResolve(matched: bool, resolvedAmount: Option<nat>, now: Time)
    | EvExpirySweep(now: Time)
    | EvVerificationSweep(answer: ProviderAnswer, now: Time)

  function Step(p: Payment, cfg: Config, e: PaymentEvent): (o: Outcome)
    ensures o.next.invoice == p.invoice && o.next.createdAt == p.createdAt
  {
    match e
    case EvVerified(kobo, now) => VerifiedCharge(p, kobo, now)
    case EvFailed => FailedCharge(p)
    case EvRefund(actor, amount, providerOk) => RefundPayment(p, cfg, actor, amount, providerOk)
    case EvApprove(request, actor, now, providerOk) => ApproveRequest(p, request, actor, now, providerOk)
    case EvReject(request, actor, now) => RejectRequest(p, request, actor, now)
    case EvResolve(matched, resolvedAmount, now) => ResolveReconciliation(p, matched, resolvedAmount, now)
    case EvExpirySweep(now) => Outcome(Expire(p, cfg, now), NoWrite, None)
    case EvVerificationSweep(answer, now) => Poll(p, cfg, answer, now)
  }

  function Run(p: Payment, cfg: Config, events: seq<PaymentEvent>): Payment
    decreases |events|
  {
    if events == [] then p else Run(Step(p, cfg, events[0]).next, cfg, events[1..])
  }
}
