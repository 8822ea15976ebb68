/** Quotes over many cases and memberships: issue, acceptance and the expiry sweep
    (backend/src/commerce/commerce.service.ts). */
module Quotes {
  import opened Wrappers
  import opened CaseStateMachine
  import opened CaseRecord
  import Benefits = Membership
  import Sc = ScLedger

  type CaseId = nat
  type SubscriptionId = nat

  /** A subscription as quotes see it, with its service-credit ledger. */
  datatype Account = Account(
    status: Benefits.SubscriptionStatus,
    plan: Benefits.Plan,
    startedAt: Time,
    renewsAt: Option<Time>,
    rows: seq<Sc.ScRow>)

  /** A quote row: its amounts, and the subscription whose benefit it carries, if any. */
  datatype QuoteRow = QuoteRow(
    caseId: CaseId,
    terms: Benefits.Quote,
    subscription: Option<SubscriptionId>,
    createdAt: Time,
    expiresAt: Option<Time>,
    acceptedAt: Option<Time>)

  /** An invoice names the quote it was raised for by its row number. */
  datatype Invoice = Invoice(quote: nat, amount: real)

  datatype Book = Book(
    cases: map<CaseId, CaseState>,
    accounts: map<SubscriptionId, Account>,
    quotes: seq<QuoteRow>,
    invoices: seq<Invoice>)

  datatype QuoteError =
    | CaseNotFound
    | NotUnderReview(status: CaseStatus)
    | ScopeMissing
    | ScopeNotConfirmed
    | QuoteNotFound
    | NotAuthorised
    | AlreadyAccepted
    | QuoteExpired
    | CaseRefused(error: CaseError)

  datatype BookOutcome = BookOutcome(next: Book, error: Option<QuoteError>)

  function Refusal(o: Outcome): Option<QuoteError> {
    match o.error
    case None => None
    case Some(e) => Some(CaseRefused(e))
  }

  // ---- issue ----

  /** The latest scope of a case. */
  datatype Scope = Scope(zone: Benefits.PricingZone, confirmed: bool)

  /** What a quote is made from: the lines, the case's tier, the customer's subscription and the latest scope. */
  datatype Offer = Offer(
    lines: seq<Benefits.QuoteLine>,
    tier: Benefits.CaseTier,
    member: Option<SubscriptionId>,
    scope: Option<Scope>)

  /** The plan a benefit is computed from: only an active subscription gives one. */
  function PlanOf(b: Book, member: Option<SubscriptionId>): Option<Benefits.Plan> {
    if member.Some? && member.value in b.accounts && b.accounts[member.value].status == Benefits.Active
    then Some(b.accounts[member.value].plan) else None
  }

  function BalanceOf(b: Book, member: Option<SubscriptionId>): real {
    if member.Some? && member.value in b.accounts then Sc.Balance(b.accounts[member.value].rows) else 0.0
  }

  /** How many of these quotes carry the subscription's discount and were made since a given time. */
  function CountUsed(quotes: seq<QuoteRow>, a: SubscriptionId, since: Time): nat {
    if quotes == [] then 0
    else CountUsed(quotes[..|quotes| - 1], a, since) + if Uses(quotes[|quotes| - 1], a, since) then 1 else 0
  }

  predicate Uses(q: QuoteRow, a: SubscriptionId, since: Time) {
    q.subscription == Some(a) && q.createdAt >= since && q.terms.discountAmount.Some?
  }

  function PeriodStart(a: Account): Time {
    Benefits.PeriodStartOf(a.startedAt, a.renewsAt)
  }

  /** The allowance a subscription has used in its current period. */
  function UsedBy(b: Book, a: SubscriptionId): nat
    requires a in b.accounts
  {
    CountUsed(b.quotes, a, PeriodStart(b.accounts[a]))
  }

  function UsageOf(b: Book, member: Option<SubscriptionId>): nat {
    if member.Some? && member.value in b.accounts then UsedBy(b, member.value) else 0
  }

  function Terms(b: Book, offer: Offer, zone: Benefits.PricingZone): Benefits.Quote {
    Benefits.CreateQuote(|b.quotes|, offer.lines, offer.tier, PlanOf(b, offer.member), UsageOf(b, offer.member), zone,
                         BalanceOf(b, offer.member))
  }

  /** Issuing a quote moves the case from review to quoted. */
  function IssueQuote(b: Book, id: CaseId, offer: Offer, now: Time, validityMs: nat): BookOutcome {
    if id !in b.cases then BookOutcome(b, Some(CaseNotFound))
    else if b.cases[id].status != UnderReview then BookOutcome(b, Some(QuoteError.NotUnderReview(b.cases[id].status)))
    else if offer.scope.None? then BookOutcome(b, Some(ScopeMissing))
    else if !offer.scope.value.confirmed then BookOutcome(b, Some(ScopeNotConfirmed))
    else
      var terms := Terms(b, offer, offer.scope.value.zone);
      var quote := QuoteRow(id, terms, if terms.subscribed then offer.member else None, now, Some(now + validityMs), None);
      BookOutcome(b.(quotes := b.quotes + [quote], cases := b.cases[id := MoveTo(b.cases[id], Quoted)]), None)
  }

  // ---- acceptance ----

  predicate PastExpiry(q: QuoteRow, now: Time) {
    q.expiresAt.Some? && q.expiresAt.value < now
  }

  /** What accepting a quote commits, against the subscription and ledger of now. */
  function CommitmentOf(b: Book, q: QuoteRow): Benefits.Commitment {
    if q.subscription.Some? && q.subscription.value in b.accounts then
      var a := b.accounts[q.subscription.value];
      Benefits.CommitBenefit(a.rows, q.terms, Some(a.status), a.plan.fxRate)
    else Benefits.CommitBenefit([], q.terms, None, 1.0)
  }

  function Charged(b: Book, q: QuoteRow): map<SubscriptionId, Account> {
    if q.subscription.Some? && q.subscription.value in b.accounts then
      b.accounts[q.subscription.value := b.accounts[q.subscription.value].(rows := CommitmentOf(b, q).rows)]
    else b.accounts
  }

  function Marked(q: QuoteRow, c: Benefits.Commitment, now: Time): QuoteRow {
    q.(acceptedAt := Some(now), terms := if c.adjusted then q.terms.(amount := c.finalAmount) else q.terms)
  }

  /** The writes made before the case transition is checked: the credit debited, the quote marked accepted, with
      a new amount when the benefit changed, and the invoice raised. */
  function Committed(b: Book, i: nat, now: Time): Book
    requires i < |b.quotes|
  {
    var q, c := b.quotes[i], CommitmentOf(b, b.quotes[i]);
    Book(b.cases, Charged(b, q), b.quotes[i := Marked(q, c, now)], b.invoices + [Invoice(i, c.finalAmount)])
  }

  function AcceptQuote(b: Book, i: nat, isOwner: bool, now: Time): BookOutcome
    requires i < |b.quotes| ==> b.quotes[i].caseId in b.cases
  {
    if i >= |b.quotes| then BookOutcome(b, Some(QuoteNotFound))
    else if !isOwner then BookOutcome(b, Some(NotAuthorised))
    else if b.quotes[i].acceptedAt.Some? then BookOutcome(b, Some(AlreadyAccepted))
    else if PastExpiry(b.quotes[i], now) then BookOutcome(b, Some(QuoteExpired))
    else
      var id := b.quotes[i].caseId;
      var o := ApplyTransition(b.cases[id], AwaitingPayment);
      BookOutcome(Committed(b, i, now).(cases := b.cases[id := o.next]), Refusal(o))
  }

  // ---- the expiry sweep ----

  predicate LapsedQuote(q: QuoteRow, now: Time) {
    q.acceptedAt.None? && PastExpiry(q, now)
  }

  /** A quote the sweep selects: lapsed, on a case still quoted. */
  predicate Selected(b: Book, i: nat, now: Time)
    requires i < |b.quotes|
  {
    LapsedQuote(b.quotes[i], now) && b.quotes[i].caseId in b.cases && b.cases[b.quotes[i].caseId].status == Quoted
  }

  predicate HasSelected(b: Book, id: CaseId, now: Time) {
    exists i :: 0 <= i < |b.quotes| && b.quotes[i].caseId == id && Selected(b, i, now)
  }

  /** Every quoted case with a lapsed quote goes back to review, once, however many such quotes it has. */
  function Swept(b: Book, now: Time): Book {
    b.(cases := map id | id in b.cases :: if HasSelected(b, id, now) then MoveTo(b.cases[id], UnderReview) else b.cases[id])
  }

  function CountSelected(b: Book, upTo: nat, now: Time): nat
    requires upTo <= |b.quotes|
  {
    if upTo == 0 then 0 else CountSelected(b, upTo - 1, now) + if Selected(b, upTo - 1, now) then 1 else 0
  }

  class QuoteDesk {
    var cases: map<CaseId, CaseState>
    var accounts: map<SubscriptionId, Account>
    var quotes: seq<QuoteRow>
    var invoices: seq<Invoice>

    function State(): Book
      reads this
    {
      Book(cases, accounts, quotes, invoices)
    }

    constructor ()
      ensures State() == Book(map[], map[], [], [])
    {
      cases, accounts, quotes, invoices := map[], map[], [], [];
    }

    method Issue(id: CaseId, offer: Offer, now: Time, validityMs: nat) returns (error: Option<QuoteError>)
      modifies this
      ensures BookOutcome(State(), error) == IssueQuote(old(State()), id, offer, now, validityMs)
    {
      hide Terms;
      if id !in cases {
        return Some(CaseNotFound);
      }
      if cases[id].status != UnderReview {
        return Some(QuoteError.NotUnderReview(cases[id].status));
      }
      if offer.scope.None? {
        return Some(ScopeMissing);
      }
      if !offer.scope.value.confirmed {
        return Some(ScopeNotConfirmed);
      }
      var terms := Terms(State(), offer, offer.scope.value.zone);
      var subscription := if terms.subscribed then offer.member else None;
      quotes := quotes + [QuoteRow(id, terms, subscription, now, Some(now + validityMs), None)];
      var o := ApplyTransition(cases[id], Quoted);
      cases := cases[id := o.next];
      return Refusal(o);
    }

    /** The benefit is committed first, and its debit written to the subscription's ledger. */
    method Commit(q: QuoteRow) returns (finalAmount: real, adjusted: bool)
      modifies this`accounts
      ensures accounts == Charged(old(State()), q)
      ensures finalAmount == CommitmentOf(old(State()), q).finalAmount && adjusted == CommitmentOf(old(State()), q).adjusted
    {
      hide Benefits.CommitBenefit;
      var c := CommitmentOf(State(), q);
      if q.subscription.Some? && q.subscription.value in accounts {
        accounts := accounts[q.subscription.value := accounts[q.subscription.value].(rows := c.rows)];
      }
      return c.finalAmount, c.adjusted;
    }

    method Accept(i: nat, isOwner: bool, now: Time) returns (error: Option<QuoteError>)
      requires i < |quotes| ==> quotes[i].caseId in cases
      modifies this
      ensures BookOutcome(State(), error) == AcceptQuote(old(State()), i, isOwner, now)
    {
      hide CommitmentOf, Charged;
      if i >= |quotes| {
        return Some(QuoteNotFound);
      }
      var quote := quotes[i];
      if !isOwner {
        return Some(NotAuthorised);
      }
      if quote.acceptedAt.Some? {
        return Some(AlreadyAccepted);
      }
      if quote.expiresAt.Some? && quote.expiresAt.value < now {
        return Some(QuoteExpired);
      }
      var finalAmount, adjusted := Commit(quote);
      quotes := quotes[i := quote.(acceptedAt := Some(now))];
      if adjusted {
        quotes := quotes[i := quotes[i].(terms := quote.terms.(amount := finalAmount))];
      }
      invoices := invoices + [Invoice(i, finalAmount)];
      var o := ApplyTransition(cases[quote.caseId], AwaitingPayment);
      cases := cases[quote.caseId := o.next];
      return Refusal(o);
    }

    /** The rows the sweep selects, in table order. */
    method SelectLapsed(now: Time) returns (stale: seq<nat>)
      ensures |stale| == CountSelected(State(), |quotes|, now)
      ensures forall k :: 0 <= k < |stale| ==> stale[k] < |quotes| && Selected(State(), stale[k], now)
      ensures forall i :: 0 <= i < |quotes| && Selected(State(), i, now) ==> i in stale
    {
      stale := [];
      for i := 0 to |quotes|
        invariant |stale| == CountSelected(State(), i, now)
        invariant forall k :: 0 <= k < |stale| ==> stale[k] < i && Selected(State(), stale[k], now)
        invariant forall j :: 0 <= j < i && Selected(State(), j, now) ==> j in stale
      {
        if Selected(State(), i, now) {
          stale := stale + [i];
        }
      }
    }

    /** The sweep: a refused transition would stop the reopening and be thrown; none is ever refused. */
    method RunExpirySweep(now: Time) returns (expired: nat, error: Option<CaseError>)
      modifies this
      ensures error.None? && State() == Swept(old(State()), now)
      ensures expired == CountSelected(old(State()), |old(quotes)|, now)
    {
      hide CountSelected, CasesAfter, Swept, Selected;
      ghost var b := State();
      var stale := SelectLapsed(now);
      error := None;
      NoneReopened(b, stale, now);
      for n := 0 to |stale|
        invariant quotes == b.quotes && invoices == b.invoices && accounts == b.accounts && error.None?
        invariant cases == CasesAfter(b, stale[..n])
      {
        var id := quotes[stale[n]].caseId;
        ReopensNext(b, stale, n, now);
        if error.None? && cases[id].status == Quoted {
          var o := ApplyTransition(cases[id], UnderReview);
          error := o.error;
          cases := cases[id := o.next];
        }
      }
      AllReopened(b, stale, now);
      assert stale[..|stale|] == stale;
      expired := |stale|;
    }
  }

  /** One of these rows is a quote on the case. */
  predicate Reached(b: Book, rows: seq<nat>, id: CaseId) {
    exists k :: 0 <= k < |rows| && rows[k] < |b.quotes| && b.quotes[rows[k]].caseId == id
  }

  /** The cases once the quotes in these rows have had their turn. */
  function CasesAfter(b: Book, rows: seq<nat>): map<CaseId, CaseState> {
    map id | id in b.cases :: if Reached(b, rows, id) then MoveTo(b.cases[id], UnderReview) else b.cases[id]
  }

  lemma NoneReopened(b: Book, rows: seq<nat>, now: Time)
    ensures CasesAfter(b, rows[..0]) == b.cases
  {
  }

  /** A turn reopens the quote's case unless an earlier turn already has. */
  lemma ReopensNext(b: Book, rows: seq<nat>, n: nat, now: Time)
    requires n < |rows| && rows[n] < |b.quotes| && Selected(b, rows[n], now)
    ensures var id, before := b.quotes[rows[n]].caseId, CasesAfter(b, rows[..n]);
            && id in before
            && CasesAfter(b, rows[..n + 1])
               == if before[id].status == Quoted then before[id := MoveTo(before[id], UnderReview)] else before
  {
    ReachedNext(b, rows, n);
    hide Reached;
  }

  lemma AllReopened(b: Book, rows: seq<nat>, now: Time)
    requires forall k :: 0 <= k < |rows| ==> rows[k] < |b.quotes| && Selected(b, rows[k], now)
    requires forall i :: 0 <= i < |b.quotes| && Selected(b, i, now) ==> i in rows
    ensures b.(cases := CasesAfter(b, rows)) == Swept(b, now)
  {
    forall id | id in b.cases
      ensures Reached(b, rows, id) <==> HasSelected(b, id, now)
    {
    }
    hide Reached, HasSelected;
  }

  lemma ReachedNext(b: Book, rows: seq<nat>, n: nat)
    requires n < |rows| && rows[n] < |b.quotes|
    ensures forall id :: Reached(b, rows[..n + 1], id) <==> Reached(b, rows[..n], id) || id == b.quotes[rows[n]].caseId
  {
    var next := rows[..n + 1];
    forall id
      ensures Reached(b, next, id) <==> Reached(b, rows[..n], id) || id == b.quotes[rows[n]].caseId
    {
      if Reached(b, rows[..n], id) {
        var k :| 0 <= k < n && rows[..n][k] < |b.quotes| && b.quotes[rows[..n][k]].caseId == id;
        assert next[k] == rows[..n][k];
      }
      if id == b.quotes[rows[n]].caseId {
        assert next[n] == rows[n];
      }
      if Reached(b, next, id) {
        var k :| 0 <= k < n + 1 && next[k] < |b.quotes| && b.quotes[next[k]].caseId == id;
        assert k < n ==> rows[..n][k] == next[k];
      }
    }
  }
}
