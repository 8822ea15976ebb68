/** What every run of quoting, acceptance, ledger calls and sweeps guarantees. */
module QuoteRuns {
  import opened Wrappers
  import opened CaseStateMachine
  import opened CaseRecord
  import opened CaseRuns
  import opened Quotes
  import Benefits = Membership
  import Sc = ScLedger
  import Rounding

  // ---- what the sweep guarantees ----

  /** The quotes that reopen a case: not accepted, and past their expiry. */
  predicate HasLapsed(b: Book, id: CaseId, now: Time) {
    exists i :: 0 <= i < |b.quotes| && b.quotes[i].caseId == id
             && b.quotes[i].acceptedAt == None && b.quotes[i].expiresAt != None && b.quotes[i].expiresAt.value < now
  }

  /** The lapsed quotes of quoted cases, by row, among the first few. */
  function RowsLapsed(b: Book, upTo: nat, now: Time): set<nat>
    requires upTo <= |b.quotes|
  {
    set i | 0 <= i < upTo && b.quotes[i].acceptedAt == None && b.quotes[i].expiresAt != None
            && b.quotes[i].expiresAt.value < now && b.quotes[i].caseId in b.cases && b.cases[b.quotes[i].caseId].status == Quoted
  }

  lemma RowsLapsedNext(b: Book, upTo: nat, now: Time)
    requires 0 < upTo <= |b.quotes|
    ensures RowsLapsed(b, upTo, now) == RowsLapsed(b, upTo - 1, now) + if Selected(b, upTo - 1, now) then {upTo - 1} else {}
    ensures upTo - 1 !in RowsLapsed(b, upTo - 1, now)
  {
  }

  /** What a sweep reports is the number of those quotes, several on one case included. */
  lemma {:induction false} CountSelectedIsCount(b: Book, upTo: nat, now: Time)
    requires upTo <= |b.quotes|
    ensures CountSelected(b, upTo, now) == |RowsLapsed(b, upTo, now)|
  {
    if upTo > 0 {
      CountSelectedIsCount(b, upTo - 1, now);
      RowsLapsedNext(b, upTo, now);
      hide RowsLapsed, Selected;
    }
  }

  /** The sweep reopens exactly the quoted cases that have such a quote. */
  lemma SweepExactly(b: Book, now: Time, id: CaseId)
    requires id in b.cases
    ensures Swept(b, now).cases[id]
         == if b.cases[id].status == Quoted && HasLapsed(b, id, now) then MoveTo(b.cases[id], UnderReview) else b.cases[id]
  {
    if b.cases[id].status == Quoted && HasLapsed(b, id, now) {
      var i :| 0 <= i < |b.quotes| && b.quotes[i].caseId == id
               && b.quotes[i].acceptedAt == None && b.quotes[i].expiresAt != None && b.quotes[i].expiresAt.value < now;
      assert Selected(b, i, now);
    }
    if HasSelected(b, id, now) {
      var i :| 0 <= i < |b.quotes| && b.quotes[i].caseId == id && Selected(b, i, now);
      assert b.quotes[i].acceptedAt == None;
    }
    hide MoveTo;
  }

  /** After the sweep no quoted case has a lapsed quote; each reopened case gained exactly one history row,
      and nothing else changed. */
  lemma SweepReopensOnce(b: Book, now: Time, id: CaseId)
    requires id in b.cases
    ensures var after := Swept(b, now);
            && after.quotes == b.quotes && after.invoices == b.invoices && after.accounts == b.accounts
            && after.cases.Keys == b.cases.Keys
            && !HasSelected(after, id, now)
            && (HasSelected(b, id, now) ==>
                  && after.cases[id].status == UnderReview
                  && after.cases[id].history == b.cases[id].history + [HistoryRow(Some(Quoted), UnderReview)])
            && (!HasSelected(b, id, now) ==> after.cases[id] == b.cases[id])
    ensures CaseInvariant(b.cases[id]) ==> CaseInvariant(Swept(b, now).cases[id])
  {
    var after := Swept(b, now);
    forall i | 0 <= i < |after.quotes| && after.quotes[i].caseId == id && LapsedQuote(after.quotes[i], now)
      ensures after.cases[id].status != Quoted
    {
      assert b.cases[id].status == Quoted ==> Selected(b, i, now);
    }
    if HasSelected(b, id, now) {
      assert b.cases[id].status == Quoted;
      if CaseInvariant(b.cases[id]) {
        MapMoveKeeps(b.cases[id], UnderReview);
      }
    }
  }

  /** Sweeping again at the same time changes nothing. */
  lemma SweepIsIdempotent(b: Book, now: Time)
    ensures Swept(Swept(b, now), now) == Swept(b, now)
  {
    forall id | id in b.cases
      ensures !HasSelected(Swept(b, now), id, now)
    {
      SweepReopensOnce(b, now, id);
    }
  }

  // ---- runs ----

  /** Other services open cases and subscriptions, move cases, change a subscription's standing and credit its
      ledger; only acceptance debits it. Billing never moves a period back. */
  datatype BookEvent =
    | OpenCase(id: CaseId, checklist: map<TaskId, Task>)
    | OnCase(id: CaseId, event: CaseEvent)
    | OpenAccount(account: SubscriptionId, plan: Benefits.Plan, now: Time)
    | SetStanding(account: SubscriptionId, status: Benefits.SubscriptionStatus, renewsAt: Option<Time>)
    | OnLedger(account: SubscriptionId, call: Sc.ScCall)
    | Issue(id: CaseId, offer: Offer, now: Time, validityMs: nat)
    | Accept(quote: nat, isOwner: bool, now: Time)
    | Sweep(now: Time)

  predicate QuotesKnown(b: Book) {
    forall i :: 0 <= i < |b.quotes| ==> b.quotes[i].caseId in b.cases
  }

  function BookStep(b: Book, e: BookEvent): Book
    requires QuotesKnown(b)
  {
    match e
    case OpenCase(id, checklist) =>
      if id in b.cases || !Unstarted(checklist) then b else b.(cases := b.cases[id := Created(checklist)])
    case OnCase(id, event) =>
      if id in b.cases then b.(cases := b.cases[id := Step(b.cases[id], event).next]) else b
    case OpenAccount(a, plan, now) =>
      if a in b.accounts then b else b.(accounts := b.accounts[a := Account(Benefits.Pending, plan, now, None, [])])
    case SetStanding(a, status, renewsAt) =>
      if a !in b.accounts || PeriodStart(b.accounts[a].(renewsAt := renewsAt)) < PeriodStart(b.accounts[a]) then b
      else b.(accounts := b.accounts[a := b.accounts[a].(status := status, renewsAt := renewsAt)])
    case OnLedger(a, call) =>
      if a in b.accounts && !call.DebitCall?
      then b.(accounts := b.accounts[a := b.accounts[a].(rows := Sc.Step(b.accounts[a].rows, call))]) else b
    case Issue(id, offer, now, validityMs) => IssueQuote(b, id, offer, now, validityMs).next
    case Accept(quote, isOwner, now) => AcceptQuote(b, quote, isOwner, now).next
    case Sweep(now) => Swept(b, now)
  }

  /** Quotes refer to known cases and subscriptions, were accepted in time, and until then keep an amount made of
      a whole service fee and the other lines. */
  predicate QuotesSound(b: Book) {
    forall i :: 0 <= i < |b.quotes| ==> QuoteSound(b, i)
  }

  predicate QuoteSound(b: Book, i: nat)
    requires i < |b.quotes|
  {
    var q := b.quotes[i];
    && q.caseId in b.cases && q.terms.id == i
    && (q.terms.subscribed <==> q.subscription.Some?)
    && (q.subscription.Some? ==> q.subscription.value in b.accounts)
    && (q.acceptedAt.Some? ==> !PastExpiry(q, q.acceptedAt.value))
    && (q.acceptedAt.None? && q.terms.subscribed ==> Benefits.Whole(q.terms.amount - Benefits.OtherOf(q.terms)))
  }

  predicate Invoiced(b: Book, i: nat) {
    exists k :: 0 <= k < |b.invoices| && b.invoices[k].quote == i
  }

  /** Accepted quotes and invoices correspond one to one, at the same amount. */
  predicate InvoicesSound(b: Book) {
    && (forall k :: 0 <= k < |b.invoices| ==>
          && b.invoices[k].quote < |b.quotes| && b.quotes[b.invoices[k].quote].acceptedAt.Some?
          && b.invoices[k].amount == b.quotes[b.invoices[k].quote].terms.amount)
    && (forall i :: 0 <= i < |b.quotes| && b.quotes[i].acceptedAt.Some? ==> Invoiced(b, i))
    && (forall k, l :: 0 <= k < l < |b.invoices| ==> b.invoices[k].quote != b.invoices[l].quote)
  }

  /** The quote was accepted on this subscription. */
  predicate AcceptedOn(b: Book, a: SubscriptionId, quote: nat) {
    quote < |b.quotes| && b.quotes[quote].acceptedAt.Some? && b.quotes[quote].subscription == Some(a)
  }

  predicate DebitsApart(rows: seq<Sc.ScRow>) {
    forall r, s :: 0 <= r < s < |rows| && rows[r].kind == Sc.Debit && rows[s].kind == Sc.Debit ==> rows[r].quote != rows[s].quote
  }

  /** Every debit belongs to a quote accepted on this subscription, no quote is debited twice, and the ledger is
      never overspent. */
  predicate LedgerSound(b: Book, a: SubscriptionId)
    requires a in b.accounts
  {
    var rows := b.accounts[a].rows;
    && Sc.NotOverspent(rows)
    && (forall r :: 0 <= r < |rows| && rows[r].kind == Sc.Debit ==> rows[r].quote.Some? && AcceptedOn(b, a, rows[r].quote.value))
    && DebitsApart(rows)
  }

  predicate LedgersSound(b: Book) {
    forall a :: a in b.accounts ==> LedgerSound(b, a)
  }

  predicate CasesSound(b: Book) {
    forall id :: id in b.cases ==> CaseInvariant(b.cases[id])
  }

  predicate BookSound(b: Book) {
    QuotesSound(b) && InvoicesSound(b) && LedgersSound(b) && CasesSound(b)
  }

  lemma CasesChange(b: Book, cases: map<CaseId, CaseState>)
    requires QuotesSound(b) && InvoicesSound(b) && LedgersSound(b) && b.cases.Keys <= cases.Keys
    ensures var next := b.(cases := cases);
            QuotesSound(next) && InvoicesSound(next) && LedgersSound(next)
  {
    hide Sc.NotOverspent;
    var next := b.(cases := cases);
    assert forall i :: Invoiced(next, i) <==> Invoiced(b, i);
    assert forall a, k :: AcceptedOn(next, a, k) <==> AcceptedOn(b, a, k);
    forall i | 0 <= i < |next.quotes|
      ensures QuoteSound(next, i)
    {
      assert QuoteSound(b, i);
    }
    forall a | a in next.accounts
      ensures LedgerSound(next, a)
    {
      assert LedgerSound(b, a);
    }
  }

  // ---- acceptance ----

  /** A commit debits at most one row, for its own quote, and never overspends. */
  lemma CommitRows(b: Book, q: QuoteRow, a: SubscriptionId)
    requires q.subscription == Some(a) && a in b.accounts && Sc.NotOverspent(b.accounts[a].rows)
    ensures var rows, after := b.accounts[a].rows, CommitmentOf(b, q).rows;
            && Sc.NotOverspent(after)
            && (after == rows || exists r :: after == rows + [r] && r.kind == Sc.Debit && r.quote == Some(q.terms.id))
  {
    hide Sc.NotOverspent, Sc.Balance, Rounding.ToNaira, Rounding.Round;
    var account := b.accounts[a];
    if q.terms.subscribed && account.status == Benefits.Active {
      var usd := Benefits.OrZero(q.terms.scAppliedNgn) as real / account.plan.fxRate;
      var call := Sc.DebitCall(usd, account.plan.fxRate, Some(q.terms.id));
      assert CommitmentOf(b, q).rows == Sc.Step(account.rows, call);
      Sc.StepKeepsCover(account.rows, call);
      if CommitmentOf(b, q).rows != account.rows {
        var r := CommitmentOf(b, q).rows[|account.rows|];
        assert CommitmentOf(b, q).rows == account.rows + [r];
      }
    }
  }

  predicate Acceptable(b: Book, i: nat, now: Time) {
    i < |b.quotes| && b.quotes[i].acceptedAt.None? && !PastExpiry(b.quotes[i], now)
  }

  lemma CommittedQuotes(b: Book, i: nat, now: Time)
    requires QuotesSound(b) && Acceptable(b, i, now)
    ensures QuotesSound(Committed(b, i, now))
  {
    hide CommitmentOf;
    var next := Committed(b, i, now);
    forall j | 0 <= j < |next.quotes|
      ensures QuoteSound(next, j)
    {
      assert QuoteSound(b, j);
    }
  }

  /** The amount stored on the accepted quote is the amount invoiced. */
  lemma InvoicedAtStoredAmount(b: Book, i: nat, now: Time)
    requires QuotesSound(b) && Acceptable(b, i, now)
    ensures Committed(b, i, now).quotes[i].terms.amount == CommitmentOf(b, b.quotes[i]).finalAmount
  {
    hide Benefits.CommitBenefit, Benefits.Whole;
    var q := b.quotes[i];
    assert QuoteSound(b, i);
    if q.subscription.Some? && q.subscription.value in b.accounts {
      var a := b.accounts[q.subscription.value];
      Benefits.StoredAmountIsCharged(a.rows, q.terms, Some(a.status), a.plan.fxRate);
    } else {
      Benefits.StoredAmountIsCharged([], q.terms, None, 1.0);
    }
  }

  lemma CommittedInvoices(b: Book, i: nat, now: Time)
    requires QuotesSound(b) && InvoicesSound(b) && Acceptable(b, i, now)
    ensures InvoicesSound(Committed(b, i, now))
  {
    InvoicedAtStoredAmount(b, i, now);
    hide QuotesSound, CommitmentOf, Charged;
    var next := Committed(b, i, now);
    assert !Invoiced(b, i);
    forall j | 0 <= j < |next.quotes| && next.quotes[j].acceptedAt.Some?
      ensures Invoiced(next, j)
    {
      if j == i {
        assert next.invoices[|b.invoices|].quote == i;
      } else {
        assert Invoiced(b, j);
        var k :| 0 <= k < |b.invoices| && b.invoices[k].quote == j;
        assert next.invoices[k].quote == j;
      }
    }
  }

  /** Acceptances already made stay made. */
  lemma AcceptedStays(b: Book, i: nat, now: Time, a: SubscriptionId, k: nat)
    requires Acceptable(b, i, now) && AcceptedOn(b, a, k)
    ensures AcceptedOn(Committed(b, i, now), a, k) && k != i
  {
    hide CommitmentOf;
  }

  lemma OtherLedger(b: Book, i: nat, now: Time, a: SubscriptionId)
    requires Acceptable(b, i, now) && a in b.accounts && LedgerSound(b, a) && b.quotes[i].subscription != Some(a)
    ensures a in Committed(b, i, now).accounts && LedgerSound(Committed(b, i, now), a)
  {
    hide Sc.NotOverspent, CommitmentOf;
    var rows := b.accounts[a].rows;
    assert Committed(b, i, now).accounts[a] == b.accounts[a];
    forall r | 0 <= r < |rows| && rows[r].kind == Sc.Debit
      ensures AcceptedOn(Committed(b, i, now), a, rows[r].quote.value)
    {
      AcceptedStays(b, i, now, a, rows[r].quote.value);
    }
    hide Committed;
  }

  lemma OwnLedger(b: Book, i: nat, now: Time, a: SubscriptionId)
    requires Acceptable(b, i, now) && a in b.accounts && LedgerSound(b, a) && b.quotes[i].subscription == Some(a)
    requires b.quotes[i].terms.id == i
    ensures a in Committed(b, i, now).accounts && LedgerSound(Committed(b, i, now), a)
  {
    CommitRows(b, b.quotes[i], a);
    hide Sc.NotOverspent, CommitmentOf;
    var rows, next := b.accounts[a].rows, Committed(b, i, now);
    var after := next.accounts[a].rows;
    assert after == CommitmentOf(b, b.quotes[i]).rows && AcceptedOn(next, a, i);
    forall r | 0 <= r < |rows| && rows[r].kind == Sc.Debit
      ensures AcceptedOn(next, a, rows[r].quote.value) && rows[r].quote != Some(i)
    {
      AcceptedStays(b, i, now, a, rows[r].quote.value);
    }
    hide Committed, AcceptedOn;
    if after != rows {
      var r :| after == rows + [r] && r.kind == Sc.Debit && r.quote == Some(i);
      DebitAdded(rows, r);
      hide DebitsApart;
    }
  }

  lemma DebitAdded(rows: seq<Sc.ScRow>, r: Sc.ScRow)
    requires DebitsApart(rows) && forall k :: 0 <= k < |rows| && rows[k].kind == Sc.Debit ==> rows[k].quote != r.quote
    ensures DebitsApart(rows + [r])
  {
  }

  lemma CommittedLedgers(b: Book, i: nat, now: Time)
    requires QuotesSound(b) && LedgersSound(b) && Acceptable(b, i, now)
    ensures LedgersSound(Committed(b, i, now))
  {
    assert QuoteSound(b, i) && Committed(b, i, now).accounts.Keys == b.accounts.Keys;
    hide LedgerSound, Committed, QuotesSound;
    forall a | a in b.accounts
      ensures LedgerSound(Committed(b, i, now), a)
    {
      if b.quotes[i].subscription == Some(a) {
        OwnLedger(b, i, now, a);
      } else {
        OtherLedger(b, i, now, a);
      }
    }
  }

  lemma AcceptKeepsBook(b: Book, i: nat, isOwner: bool, now: Time)
    requires BookSound(b) && QuotesKnown(b)
    ensures BookSound(AcceptQuote(b, i, isOwner, now).next)
  {
    if isOwner && Acceptable(b, i, now) {
      CommittedQuotes(b, i, now);
      CommittedInvoices(b, i, now);
      CommittedLedgers(b, i, now);
      assert QuoteSound(b, i) && Committed(b, i, now).cases == b.cases;
      hide Committed, CaseInvariant, ApplyTransition, QuotesSound, InvoicesSound, LedgersSound;
      var id := b.quotes[i].caseId;
      TransitionKeeps(b.cases[id], AwaitingPayment);
      CasesChange(Committed(b, i, now), b.cases[id := ApplyTransition(b.cases[id], AwaitingPayment).next]);
    }
  }

  // ---- the other steps ----

  lemma QuoteAdded(b: Book, q: QuoteRow)
    requires QuotesSound(b) && InvoicesSound(b) && LedgersSound(b)
    requires q.acceptedAt.None? && QuoteSound(b.(quotes := b.quotes + [q]), |b.quotes|)
    ensures var next := b.(quotes := b.quotes + [q]);
            QuotesSound(next) && InvoicesSound(next) && LedgersSound(next)
  {
    hide Sc.NotOverspent, Benefits.Whole;
    var next := b.(quotes := b.quotes + [q]);
    forall i | 0 <= i < |b.quotes|
      ensures QuoteSound(next, i)
    {
      assert QuoteSound(b, i);
    }
    assert forall i :: Invoiced(next, i) <==> Invoiced(b, i);
    assert forall a, k :: AcceptedOn(b, a, k) ==> AcceptedOn(next, a, k);
    forall a | a in next.accounts
      ensures LedgerSound(next, a)
    {
      assert LedgerSound(b, a);
    }
  }

  lemma IssueKeepsBook(b: Book, id: CaseId, offer: Offer, now: Time, validityMs: nat)
    requires BookSound(b)
    ensures BookSound(IssueQuote(b, id, offer, now, validityMs).next)
  {
    hide Terms, CaseInvariant, Benefits.Whole, QuotesSound, InvoicesSound, LedgersSound;
    var next := IssueQuote(b, id, offer, now, validityMs).next;
    if next != b {
      var q := next.quotes[|b.quotes|];
      var issued := b.(quotes := b.quotes + [q]);
      NewTerms(b, offer, offer.scope.value.zone);
      assert QuoteSound(issued, |b.quotes|);
      QuoteAdded(b, q);
      MapMoveKeeps(b.cases[id], Quoted);
      CasesChange(issued, next.cases);
    }
  }

  /** The terms of a new quote: a benefit only on an active subscription, an amount of whole service naira. */
  lemma NewTerms(b: Book, offer: Offer, zone: Benefits.PricingZone)
    ensures var q := Terms(b, offer, zone);
            && q.id == |b.quotes|
            && (q.subscribed ==> PlanOf(b, offer.member).Some? && Benefits.Whole(q.amount - Benefits.OtherOf(q)))
  {
    Benefits.CreatedAmountIsWhole(|b.quotes|, offer.lines, offer.tier, PlanOf(b, offer.member), UsageOf(b, offer.member), zone,
                                  BalanceOf(b, offer.member));
    hide Benefits.Whole, Benefits.SumLines, Benefits.Discount, Benefits.PreviewCredit;
  }

  lemma SweepKeepsBook(b: Book, now: Time)
    requires BookSound(b)
    ensures BookSound(Swept(b, now))
  {
    CasesChange(b, Swept(b, now).cases);
    forall id | id in b.cases
      ensures CaseInvariant(Swept(b, now).cases[id])
    {
      SweepReopensOnce(b, now, id);
    }
  }

  /** A subscription changes, and no debit is added to its ledger. */
  lemma AccountChange(b: Book, a: SubscriptionId, account: Account)
    requires BookSound(b) && Sc.NotOverspent(account.rows)
    requires account.rows == (if a in b.accounts then b.accounts[a].rows else [])
          || (a in b.accounts && exists r :: account.rows == b.accounts[a].rows + [r] && r.kind != Sc.Debit)
    ensures BookSound(b.(accounts := b.accounts[a := account]))
  {
    hide Sc.NotOverspent, CaseInvariant, Benefits.Whole;
    var next := b.(accounts := b.accounts[a := account]);
    assert forall i :: Invoiced(next, i) <==> Invoiced(b, i);
    assert forall s, k :: AcceptedOn(next, s, k) <==> AcceptedOn(b, s, k);
    forall i | 0 <= i < |next.quotes|
      ensures QuoteSound(next, i)
    {
      assert QuoteSound(b, i);
    }
    forall s | s in next.accounts
      ensures LedgerSound(next, s)
    {
      assert s in b.accounts ==> LedgerSound(b, s);
    }
  }

  lemma LedgerCallKeepsBook(b: Book, a: SubscriptionId, call: Sc.ScCall)
    requires BookSound(b) && a in b.accounts && !call.DebitCall?
    ensures BookSound(b.(accounts := b.accounts[a := b.accounts[a].(rows := Sc.Step(b.accounts[a].rows, call))]))
  {
    hide Sc.NotOverspent;
    var rows := b.accounts[a].rows;
    assert LedgerSound(b, a);
    Sc.StepKeepsCover(rows, call);
    var after := Sc.Step(rows, call);
    if after != rows {
      assert after == rows + [after[|rows|]] && after[|rows|].kind != Sc.Debit;
    }
    hide BookSound, Sc.Step;
    AccountChange(b, a, b.accounts[a].(rows := after));
  }

  lemma CaseEventKeepsBook(b: Book, id: CaseId, c: CaseState)
    requires BookSound(b) && CaseInvariant(c)
    ensures BookSound(b.(cases := b.cases[id := c]))
  {
    hide QuotesSound, InvoicesSound, LedgersSound, CaseInvariant;
    CasesChange(b, b.cases[id := c]);
  }

  lemma AccountEventKeepsBook(b: Book, e: BookEvent)
    requires BookSound(b) && QuotesKnown(b)
    requires e.OpenAccount? || e.SetStanding? || e.OnLedger?
    ensures BookSound(BookStep(b, e))
  {
    assert forall a :: a in b.accounts ==> LedgerSound(b, a);
    EmptyLedger();
    hide BookSound, QuotesKnown, Sc.Step, Sc.NotOverspent;
    match e
    case OpenAccount(a, plan, now) =>
      if a !in b.accounts {
        AccountChange(b, a, Account(Benefits.Pending, plan, now, None, []));
      }
    case SetStanding(a, status, renewsAt) =>
      if a in b.accounts {
        AccountChange(b, a, b.accounts[a].(status := status, renewsAt := renewsAt));
      }
    case OnLedger(a, call) =>
      if a in b.accounts && !call.DebitCall? {
        LedgerCallKeepsBook(b, a, call);
      }
  }

  lemma StepKeepsBook(b: Book, e: BookEvent)
    requires BookSound(b)
    ensures QuotesKnown(b) && BookSound(BookStep(b, e))
  {
    QuotesAreKnown(b);
    assert forall id :: id in b.cases ==> CaseInvariant(b.cases[id]);
    hide BookSound, QuotesKnown, AcceptQuote, IssueQuote, Swept, Step, CaseInvariant, Unstarted;
    match e
    case OpenCase(id, checklist) =>
      if id !in b.cases && Unstarted(checklist) {
        ReachableCase(checklist, []);
        assert Run(Created(checklist), []) == Created(checklist);
        CaseEventKeepsBook(b, id, Created(checklist));
      }
    case OnCase(id, move) =>
      if id in b.cases {
        StepKeepsInvariant(b.cases[id], move);
        CaseEventKeepsBook(b, id, Step(b.cases[id], move).next);
      }
    case Issue(id, offer, now, validityMs) => IssueKeepsBook(b, id, offer, now, validityMs);
    case Accept(quote, isOwner, now) => AcceptKeepsBook(b, quote, isOwner, now);
    case Sweep(now) => SweepKeepsBook(b, now);
    case _ => AccountEventKeepsBook(b, e);
  }

  lemma QuotesAreKnown(b: Book)
    requires QuotesSound(b)
    ensures QuotesKnown(b)
  {
    forall i | 0 <= i < |b.quotes|
      ensures b.quotes[i].caseId in b.cases
    {
      assert QuoteSound(b, i);
    }
  }

  lemma EmptyLedger()
    ensures Sc.NotOverspent([])
  {
  }

  ghost function RunBook(b: Book, events: seq<BookEvent>): Book
    requires BookSound(b)
    decreases |events|
  {
    if events == [] then b
    else
      StepKeepsBook(b, events[0]);
      RunBook(BookStep(b, events[0]), events[1..])
  }

  /** Over every run on any number of cases and subscriptions: no quote is accepted after it expired, accepted
      quotes and invoices correspond one to one at the same amount, every debit of service credit belongs to one
      accepted quote of its subscription and no quote is debited twice, no ledger is overspent, and every case
      stays lawful. */
  lemma {:induction false} BookAlwaysSound(b: Book, events: seq<BookEvent>)
    requires BookSound(b)
    ensures BookSound(RunBook(b, events))
    decreases |events|
  {
    hide BookSound, BookStep;
    if events != [] {
      StepKeepsBook(b, events[0]);
      BookAlwaysSound(BookStep(b, events[0]), events[1..]);
    }
  }

  const EMPTY_BOOK := Book(map[], map[], [], [])

  lemma EmptyBookIsSound()
    ensures BookSound(EMPTY_BOOK) && AllowanceKept(EMPTY_BOOK)
  {
  }

  /** The same from the empty book, with the allowance of every subscription kept as well. */
  lemma EveryBook(events: seq<BookEvent>)
    ensures BookSound(EMPTY_BOOK) && BookSound(RunBook(EMPTY_BOOK, events)) && AllowanceKept(RunBook(EMPTY_BOOK, events))
  {
    EmptyBookIsSound();
    BookAlwaysSound(EMPTY_BOOK, events);
    AllowanceAlwaysKept(EMPTY_BOOK, events);
  }

  // ---- the monthly allowance ----

  /** In its current period every subscription has at most as many discounted quotes as its plan allows. */
  predicate AllowanceKept(b: Book) {
    forall a :: a in b.accounts ==> UsedBy(b, a) <= b.accounts[a].plan.eligiblePerMonth
  }

  lemma CountUsedAppend(quotes: seq<QuoteRow>, q: QuoteRow, a: SubscriptionId, since: Time)
    ensures CountUsed(quotes + [q], a, since) == CountUsed(quotes, a, since) + if Uses(q, a, since) then 1 else 0
  {
    assert (quotes + [q])[..|quotes|] == quotes;
  }

  /** The discounted quotes of a subscription made no earlier than a given time, by row. */
  function RowsUsing(quotes: seq<QuoteRow>, a: SubscriptionId, since: Time): set<nat> {
    set i | 0 <= i < |quotes| && quotes[i].subscription == Some(a) && quotes[i].createdAt - since >= 0
            && quotes[i].terms.discountAmount != None
  }

  /** The usage is their number. */
  lemma {:induction false} CountUsedIsCount(quotes: seq<QuoteRow>, a: SubscriptionId, since: Time)
    ensures CountUsed(quotes, a, since) == |RowsUsing(quotes, a, since)|
  {
    if quotes != [] {
      var n := |quotes| - 1;
      CountUsedIsCount(quotes[..n], a, since);
      RowsUsingNext(quotes, a, since);
      hide RowsUsing;
    }
  }

  lemma RowsUsingNext(quotes: seq<QuoteRow>, a: SubscriptionId, since: Time)
    requires quotes != []
    ensures var n := |quotes| - 1;
            |RowsUsing(quotes, a, since)| == |RowsUsing(quotes[..n], a, since)| + if Uses(quotes[n], a, since) then 1 else 0
  {
    var n := |quotes| - 1;
    assert RowsUsing(quotes, a, since) == RowsUsing(quotes[..n], a, since) + if Uses(quotes[n], a, since) then {n} else {};
  }

  /** Marking a quote accepted does not change what it uses. */
  lemma {:induction false} CountUsedMarked(quotes: seq<QuoteRow>, i: nat, c: Benefits.Commitment, now: Time, a: SubscriptionId, since: Time)
    requires i < |quotes|
    ensures CountUsed(quotes[i := Marked(quotes[i], c, now)], a, since) == CountUsed(quotes, a, since)
  {
    var n, after := |quotes| - 1, quotes[i := Marked(quotes[i], c, now)];
    if i == n {
      assert after[..n] == quotes[..n];
    } else {
      assert after[..n] == quotes[..n][i := Marked(quotes[..n][i], c, now)];
      CountUsedMarked(quotes[..n], i, c, now, a, since);
    }
  }

  lemma {:induction false} CountUsedLater(quotes: seq<QuoteRow>, a: SubscriptionId, since: Time, later: Time)
    requires since <= later
    ensures CountUsed(quotes, a, later) <= CountUsed(quotes, a, since)
  {
    if quotes != [] {
      CountUsedLater(quotes[..|quotes| - 1], a, since, later);
    }
  }

  lemma {:induction false} CountUsedNone(quotes: seq<QuoteRow>, a: SubscriptionId, since: Time)
    requires forall i :: 0 <= i < |quotes| ==> quotes[i].subscription != Some(a)
    ensures CountUsed(quotes, a, since) == 0
  {
    if quotes != [] {
      CountUsedNone(quotes[..|quotes| - 1], a, since);
    }
  }

  lemma IssueKeepsAllowance(b: Book, id: CaseId, offer: Offer, now: Time, validityMs: nat)
    requires AllowanceKept(b)
    ensures AllowanceKept(IssueQuote(b, id, offer, now, validityMs).next)
  {
    var next := IssueQuote(b, id, offer, now, validityMs).next;
    if next != b {
      DiscountedWithinLimit(b, offer, offer.scope.value.zone);
      hide Terms, CountUsed;
      forall a | a in b.accounts
        ensures UsedBy(next, a) <= b.accounts[a].plan.eligiblePerMonth
      {
        CountUsedAppend(b.quotes, next.quotes[|b.quotes|], a, PeriodStart(b.accounts[a]));
        assert UsedBy(b, a) <= b.accounts[a].plan.eligiblePerMonth;
      }
    }
  }

  /** A discount is given only to a subscription with allowance left. */
  lemma DiscountedWithinLimit(b: Book, offer: Offer, zone: Benefits.PricingZone)
    ensures Terms(b, offer, zone).subscribed ==>
              && offer.member.Some? && offer.member.value in b.accounts
              && UsedBy(b, offer.member.value) < b.accounts[offer.member.value].plan.eligiblePerMonth
  {
    hide CountUsed, Benefits.SumLines, Benefits.Discount, Benefits.PreviewCredit;
  }

  lemma AcceptKeepsAllowance(b: Book, i: nat, isOwner: bool, now: Time)
    requires QuotesKnown(b) && AllowanceKept(b)
    ensures AllowanceKept(AcceptQuote(b, i, isOwner, now).next)
  {
    hide CountUsed, CommitmentOf, ApplyTransition, PastExpiry;
    var next := AcceptQuote(b, i, isOwner, now).next;
    if next.quotes != b.quotes {
      var c := CommitmentOf(b, b.quotes[i]);
      forall a | a in next.accounts
        ensures UsedBy(next, a) <= next.accounts[a].plan.eligiblePerMonth
      {
        CountUsedMarked(b.quotes, i, c, now, a, PeriodStart(b.accounts[a]));
        assert UsedBy(b, a) <= b.accounts[a].plan.eligiblePerMonth;
      }
    }
  }

  lemma StandingKeepsAllowance(b: Book, e: BookEvent)
    requires BookSound(b) && QuotesKnown(b) && AllowanceKept(b)
    requires e.OpenAccount? || e.SetStanding? || e.OnLedger?
    ensures AllowanceKept(BookStep(b, e))
  {
    hide CountUsed, Sc.Step, InvoicesSound, LedgersSound, CasesSound;
    var next := BookStep(b, e);
    forall a | a in next.accounts
      ensures UsedBy(next, a) <= next.accounts[a].plan.eligiblePerMonth
    {
      if a in b.accounts {
        assert UsedBy(b, a) <= b.accounts[a].plan.eligiblePerMonth;
        CountUsedLater(b.quotes, a, PeriodStart(b.accounts[a]), PeriodStart(next.accounts[a]));
      } else {
        forall i | 0 <= i < |b.quotes|
          ensures b.quotes[i].subscription != Some(a)
        {
          assert QuoteSound(b, i);
        }
        CountUsedNone(b.quotes, a, PeriodStart(next.accounts[a]));
      }
    }
  }

  lemma StepKeepsAllowance(b: Book, e: BookEvent)
    requires BookSound(b) && QuotesKnown(b) && AllowanceKept(b)
    ensures AllowanceKept(BookStep(b, e))
  {
    hide CountUsed, BookSound, AcceptQuote, IssueQuote, Step, Sc.Step;
    match e
    case Issue(id, offer, now, validityMs) => IssueKeepsAllowance(b, id, offer, now, validityMs);
    case Accept(quote, isOwner, now) => AcceptKeepsAllowance(b, quote, isOwner, now);
    case OpenCase(id, checklist) =>
      assert BookStep(b, e).quotes == b.quotes && BookStep(b, e).accounts == b.accounts;
    case OnCase(id, event) =>
      assert BookStep(b, e).quotes == b.quotes && BookStep(b, e).accounts == b.accounts;
    case Sweep(now) =>
      assert BookStep(b, e).quotes == b.quotes && BookStep(b, e).accounts == b.accounts;
    case _ => StandingKeepsAllowance(b, e);
  }

  /** Over every run, no subscription gets more discounted quotes in a period than its plan allows. */
  lemma {:induction false} AllowanceAlwaysKept(b: Book, events: seq<BookEvent>)
    requires BookSound(b) && AllowanceKept(b)
    ensures AllowanceKept(RunBook(b, events))
    decreases |events|
  {
    hide BookSound, AllowanceKept, BookStep;
    if events != [] {
      StepKeepsBook(b, events[0]);
      StepKeepsAllowance(b, events[0]);
      AllowanceAlwaysKept(BookStep(b, events[0]), events[1..]);
    }
  }

  // ---- issue and acceptance, exactly ----

  /** Exactly when a quote is issued, on a case in review with a confirmed scope. It is one more row on that case, open
      to acceptance for its validity and not a moment longer. */
  lemma IssuedExactly(b: Book, id: CaseId, offer: Offer, now: Time, validityMs: nat)
    ensures var o := IssueQuote(b, id, offer, now, validityMs);
            && o.error == (if id !in b.cases then Some(CaseNotFound)
                           else if b.cases[id].status != UnderReview then Some(QuoteError.NotUnderReview(b.cases[id].status))
                           else if offer.scope == None then Some(ScopeMissing)
                           else if !offer.scope.value.confirmed then Some(ScopeNotConfirmed) else None)
            && (o.error.Some? ==> o.next == b)
            && (o.error.None? ==>
                  && o.next.invoices == b.invoices && o.next.accounts == b.accounts
                  && |o.next.quotes| == |b.quotes| + 1 && o.next.quotes[..|b.quotes|] == b.quotes
                  && o.next.cases == b.cases[id := MoveTo(b.cases[id], Quoted)]
                  && var q := o.next.quotes[|b.quotes|];
                     && q.caseId == id && q.acceptedAt.None? && q.createdAt == now
                     && q.terms == Terms(b, offer, offer.scope.value.zone)
                     && (q.terms.subscribed ==> q.subscription == offer.member)
                     && forall later: Time :: PastExpiry(q, later) <==> later - now > validityMs)
  {
    hide Terms, MoveTo;
  }

  /** Exactly when a new quote carries a benefit: service fees on a Concierge case, and an active subscription with
      allowance left. */
  lemma BenefitExactly(b: Book, offer: Offer, zone: Benefits.PricingZone)
    ensures Terms(b, offer, zone).subscribed
       <==> && offer.tier == Benefits.Concierge && Benefits.SumLines(offer.lines, true) > 0.0
            && offer.member.Some? && offer.member.value in b.accounts
            && b.accounts[offer.member.value].status == Benefits.Active
            && UsedBy(b, offer.member.value) < b.accounts[offer.member.value].plan.eligiblePerMonth
  {
    Benefits.CreatedQuoteIsBenefited(|b.quotes|, offer.lines, offer.tier, PlanOf(b, offer.member), UsageOf(b, offer.member), zone,
                                     BalanceOf(b, offer.member));
    hide CountUsed, Benefits.SumLines, Benefits.CreateQuote, Sc.Balance;
  }

  /** Exactly when an acceptance commits: the owner, once, in time; anything else writes nothing. And why a call fails. */
  lemma AcceptedExactly(b: Book, i: nat, isOwner: bool, now: Time)
    requires QuotesKnown(b)
    ensures var o := AcceptQuote(b, i, isOwner, now);
            && (|o.next.invoices| == |b.invoices| + 1 <==> isOwner && Acceptable(b, i, now))
            && (!(isOwner && Acceptable(b, i, now)) ==> o.next == b)
            && o.error == (if |b.quotes| <= i then Some(QuoteNotFound)
                           else if !isOwner then Some(NotAuthorised)
                           else if b.quotes[i].acceptedAt != None then Some(AlreadyAccepted)
                           else if PastExpiry(b.quotes[i], now) then Some(QuoteExpired)
                           else
                             var status := b.cases[b.quotes[i].caseId].status;
                             if status == Quoted then None else Some(CaseRefused(InvalidTransition(status, AwaitingPayment))))
  {
    hide CommitmentOf, MoveTo;
  }

  /** An acceptance debits no other subscription's ledger and touches no other quote or case. */
  lemma AcceptanceTouchesOne(b: Book, i: nat, isOwner: bool, now: Time)
    requires QuotesKnown(b) && i < |b.quotes|
    ensures var next := AcceptQuote(b, i, isOwner, now).next;
            && (forall j :: 0 <= j < |b.quotes| && j != i ==> |next.quotes| == |b.quotes| && next.quotes[j] == b.quotes[j])
            && (forall a :: a in b.accounts && b.quotes[i].subscription != Some(a) ==> a in next.accounts && next.accounts[a] == b.accounts[a])
            && (forall id :: id in b.cases && id != b.quotes[i].caseId ==> id in next.cases && next.cases[id] == b.cases[id])
  {
    hide CommitmentOf, ApplyTransition;
  }

  // ---- acceptance and the case ----

  /** An in-time acceptance moves the case exactly when the case is quoted; whether or not it does, the credit is
      debited, the quote marked and its invoice raised. */
  lemma AcceptanceMovesCase(b: Book, i: nat, now: Time)
    requires BookSound(b) && Acceptable(b, i, now)
    ensures b.quotes[i].caseId in b.cases
    ensures var o := AcceptQuote(b, i, true, now);
            var id := b.quotes[i].caseId;
            && o.next.accounts == Charged(b, b.quotes[i])
            && o.next.invoices == b.invoices + [Invoice(i, CommitmentOf(b, b.quotes[i]).finalAmount)]
            && o.next.quotes[i].acceptedAt == Some(now)
            && (o.error.None? <==> b.cases[id].status == Quoted)
            && (o.error.None? <==> o.next.cases[id].status == AwaitingPayment && o.next.cases[id] != b.cases[id])
            && (o.error.Some? ==> o.next.cases[id] == b.cases[id])
  {
    assert QuoteSound(b, i);
    hide CommitmentOf, BookSound;
  }

  /** A case brought to review, a member with one dollar of credit, a quote of 400 made from a fee of 1000 with a
      tenth off and the dollar applied, and the case put on hold. */
  function HoldQuoted(): seq<BookEvent> {
    MemberEvents() + [Issue(7, HeldOffer(), 0, 100)] + [OnCase(7, EvHold)]
  }

  function HeldPlan(): Benefits.Plan {
    Benefits.Plan(10.0, 2, 500.0)
  }

  function HeldOffer(): Offer {
    Offer([Benefits.QuoteLine(Benefits.ServiceFee, 1000.0)], Benefits.Concierge, Some(3), Some(Scope(Benefits.Lagos, true)))
  }

  function Member(rows: seq<Sc.ScRow>): Account {
    Account(Benefits.Active, HeldPlan(), 0, Some(Benefits.BILLING_PERIOD), rows)
  }

  /** The book those events end in, for whatever history the case has by then. */
  function HeldBook(c: CaseState): Book {
    Book(map[7 := c], map[3 := Member([Sc.ScRow(Sc.Grant, 1.0, None, None)])],
         [QuoteRow(7, Benefits.Quote(0, 400.0, true, Some(1000.0), Some(0.0), Some(100), Some(500)), Some(3), 0, Some(100), None)], [])
  }

  lemma {:induction false} RunBookNext(b: Book, events: seq<BookEvent>, e: BookEvent)
    requires BookSound(b)
    ensures BookSound(RunBook(b, events)) && QuotesKnown(RunBook(b, events))
    ensures RunBook(b, events + [e]) == BookStep(RunBook(b, events), e)
    decreases |events|
  {
    hide BookSound, BookStep, QuotesKnown;
    if events == [] {
      assert ([] + [e])[0] == e && ([] + [e])[1..] == [];
      StepKeepsBook(b, e);
      RunBookUnfolds(b, [] + [e]);
    } else {
      StepKeepsBook(b, events[0]);
      assert (events + [e])[0] == events[0] && (events + [e])[1..] == events[1..] + [e];
      RunBookNext(BookStep(b, events[0]), events[1..], e);
      RunBookUnfolds(b, events + [e]);
    }
  }

  lemma RunBookUnfolds(b: Book, events: seq<BookEvent>)
    requires BookSound(b)
    ensures events != [] ==> QuotesKnown(b) && BookSound(BookStep(b, events[0]))
    ensures RunBook(b, events) == if events == [] then b else RunBook(BookStep(b, events[0]), events[1..])
  {
    if events != [] {
      StepKeepsBook(b, events[0]);
    }
  }

  lemma HeldTerms()
    ensures Benefits.CreateQuote(0, [Benefits.QuoteLine(Benefits.ServiceFee, 1000.0)], Benefits.Concierge,
                                 Some(Benefits.Plan(10.0, 2, 500.0)), 0, Benefits.Lagos, 1.0)
         == Benefits.Quote(0, 400.0, true, Some(1000.0), Some(0.0), Some(100), Some(500))
  {
    var lines := [Benefits.QuoteLine(Benefits.ServiceFee, 1000.0)];
    assert lines[..0] == [] && Benefits.SumLines(lines, true) == 1000.0 && Benefits.SumLines(lines, false) == 0.0;
    hide Benefits.SumLines;
    HeldPreview();
    hide Benefits.PreviewBenefit;
  }

  lemma HeldPreview()
    ensures Benefits.PreviewBenefit(Benefits.Concierge, Some(Benefits.Plan(10.0, 2, 500.0)), 0, 1000.0, Benefits.Lagos, 1.0)
         == Some(Benefits.Preview(100, 500, 400))
  {
    assert Benefits.Discount(1000.0, 10.0) == 100;
    hide Benefits.Discount;
    assert Benefits.PreviewCredit(900.0, Benefits.Lagos, 1.0, 500.0) == 500.0;
  }

  function Review(): CaseState {
    MoveTo(MoveTo(Created(map[]), Submitted), UnderReview)
  }

  function MemberBook(c: CaseState, a: Account): Book {
    Book(map[7 := c], map[3 := a], [], [])
  }

  lemma ReviewSteps()
    ensures QuotesKnown(EMPTY_BOOK)
    ensures var draft := Book(map[7 := Created(map[])], map[], [], []);
            var submitted := Book(map[7 := MoveTo(Created(map[]), Submitted)], map[], [], []);
            && BookStep(EMPTY_BOOK, OpenCase(7, map[])) == draft
            && BookStep(draft, OnCase(7, EvTransition(Submitted))) == submitted
            && BookStep(submitted, OnCase(7, EvTransition(UnderReview))) == Book(map[7 := Review()], map[], [], [])
  {
  }

  lemma MemberSteps(c: CaseState)
    ensures var pending := Account(Benefits.Pending, HeldPlan(), 0, None, []);
            && BookStep(Book(map[7 := c], map[], [], []), OpenAccount(3, HeldPlan(), 0)) == MemberBook(c, pending)
            && BookStep(MemberBook(c, pending), SetStanding(3, Benefits.Active, Some(Benefits.BILLING_PERIOD)))
               == MemberBook(c, Member([]))
            && BookStep(MemberBook(c, Member([])), OnLedger(3, Sc.GrantCall(1.0)))
               == MemberBook(c, Member([Sc.ScRow(Sc.Grant, 1.0, None, None)]))
  {
    assert [] + [Sc.ScRow(Sc.Grant, 1.0, None, None)] == [Sc.ScRow(Sc.Grant, 1.0, None, None)];
  }

  lemma IssueSteps()
    ensures var b := MemberBook(Review(), Member([Sc.ScRow(Sc.Grant, 1.0, None, None)]));
            var quoted := MoveTo(Review(), Quoted);
            && BookStep(b, Issue(7, HeldOffer(), 0, 100)) == HeldBook(quoted)
            && BookStep(HeldBook(quoted), OnCase(7, EvHold)) == HeldBook(Hold(quoted).next)
            && Hold(quoted).next.status == OnHold
  {
    HeldTerms();
    hide Benefits.CreateQuote;
    var rows := [Sc.ScRow(Sc.Grant, 1.0, None, None)];
    var b := MemberBook(Review(), Member(rows));
    assert rows[..0] == [] && Sc.Balance(rows) == 1.0;
    hide Sc.Balance;
    assert CountUsed([], 3, 0) == 0;
    assert Terms(b, HeldOffer(), Benefits.Lagos)
        == Benefits.Quote(0, 400.0, true, Some(1000.0), Some(0.0), Some(100), Some(500));
    hide Terms;
    assert Review().status == UnderReview && MoveTo(Review(), Quoted).status == Quoted;
    hide MoveTo, Review;
  }

  function ReviewEvents(): seq<BookEvent> {
    [OpenCase(7, map[])] + [OnCase(7, EvTransition(Submitted))] + [OnCase(7, EvTransition(UnderReview))]
  }

  function MemberEvents(): seq<BookEvent> {
    ReviewEvents() + [OpenAccount(3, HeldPlan(), 0)] + [SetStanding(3, Benefits.Active, Some(Benefits.BILLING_PERIOD))]
    + [OnLedger(3, Sc.GrantCall(1.0))]
  }

  lemma ReviewRun()
    ensures BookSound(EMPTY_BOOK) && RunBook(EMPTY_BOOK, ReviewEvents()) == Book(map[7 := Review()], map[], [], [])
  {
    EmptyBookIsSound();
    ReviewSteps();
    assert RunBook(EMPTY_BOOK, []) == EMPTY_BOOK;
    var e1 := [OpenCase(7, map[])];
    var e2 := e1 + [OnCase(7, EvTransition(Submitted))];
    assert ReviewEvents() == e2 + [OnCase(7, EvTransition(UnderReview))] && [] + e1 == e1;
    hide *;
    RunBookNext(EMPTY_BOOK, [], OpenCase(7, map[]));
    RunBookNext(EMPTY_BOOK, e1, OnCase(7, EvTransition(Submitted)));
    RunBookNext(EMPTY_BOOK, e2, OnCase(7, EvTransition(UnderReview)));
  }

  lemma MemberRun()
    ensures BookSound(EMPTY_BOOK)
         && RunBook(EMPTY_BOOK, MemberEvents()) == MemberBook(Review(), Member([Sc.ScRow(Sc.Grant, 1.0, None, None)]))
  {
    ReviewRun();
    MemberSteps(Review());
    var e3 := ReviewEvents();
    var e4 := e3 + [OpenAccount(3, HeldPlan(), 0)];
    var e5 := e4 + [SetStanding(3, Benefits.Active, Some(Benefits.BILLING_PERIOD))];
    assert MemberEvents() == e5 + [OnLedger(3, Sc.GrantCall(1.0))];
    hide *;
    RunBookNext(EMPTY_BOOK, e3, OpenAccount(3, HeldPlan(), 0));
    RunBookNext(EMPTY_BOOK, e4, SetStanding(3, Benefits.Active, Some(Benefits.BILLING_PERIOD)));
    RunBookNext(EMPTY_BOOK, e5, OnLedger(3, Sc.GrantCall(1.0)));
  }

  lemma HeldRun() returns (c: CaseState)
    ensures BookSound(EMPTY_BOOK) && RunBook(EMPTY_BOOK, HoldQuoted()) == HeldBook(c) && c.status == OnHold
  {
    c := Hold(MoveTo(Review(), Quoted)).next;
    MemberRun();
    IssueSteps();
    var e6 := MemberEvents();
    var e7 := e6 + [Issue(7, HeldOffer(), 0, 100)];
    assert HoldQuoted() == e7 + [OnCase(7, EvHold)];
    hide *;
    RunBookNext(EMPTY_BOOK, e6, Issue(7, HeldOffer(), 0, 100));
    RunBookNext(EMPTY_BOOK, e7, OnCase(7, EvHold));
  }

  /** Accepting on the held book: refused, and yet committed. */
  lemma HeldAcceptance(c: CaseState)
    requires c.status == OnHold
    ensures var o := AcceptQuote(HeldBook(c), 0, true, 50);
            && o.error == Some(CaseRefused(InvalidTransition(OnHold, AwaitingPayment)))
            && o.next.invoices == [Invoice(0, 400.0)] && o.next.cases == map[7 := c]
            && o.next.accounts == map[3 := Member([Sc.ScRow(Sc.Grant, 1.0, None, None)] + [Sc.ScRow(Sc.Debit, 1.0, Some(500), Some(0))])]
  {
    var b, rows := HeldBook(c), [Sc.ScRow(Sc.Grant, 1.0, None, None)];
    assert rows[..0] == [] && Sc.Balance(rows) == 1.0;
    hide Sc.Balance;
    var q := b.quotes[0].terms;
    assert 500 as real / 500.0 == 1.0;
    assert Sc.DebitCapped(rows, 1.0, 500.0, Some(0)) == Sc.Debited(rows + [Sc.ScRow(Sc.Debit, 1.0, Some(500), Some(0))], 1.0, 500);
    assert Benefits.CommitBenefit(rows, q, Some(Benefits.Active), 500.0)
        == Benefits.Commitment(rows + [Sc.ScRow(Sc.Debit, 1.0, Some(500), Some(0))], 400.0, false);
    hide Benefits.CommitBenefit;
    assert b.cases[7 := c] == b.cases;
  }

  /** The stranded invoice can happen, from the empty book on: the customer accepts while the case is on hold. The call
      is refused, yet the invoice stands, and the dollar of credit is gone. */
  lemma HeldCaseStrandsInvoice()
    ensures BookSound(EMPTY_BOOK)
    ensures var b := RunBook(EMPTY_BOOK, HoldQuoted());
            && |b.quotes| == 1 && b.quotes[0].caseId in b.cases && b.cases[b.quotes[0].caseId].status == OnHold
            && var o := AcceptQuote(b, 0, true, 50);
               && o.error == Some(CaseRefused(InvalidTransition(OnHold, AwaitingPayment)))
               && o.next.invoices == [Invoice(0, 400.0)] && o.next.cases == b.cases
               && 3 in o.next.accounts
               && o.next.accounts[3].rows == [Sc.ScRow(Sc.Grant, 1.0, None, None)] + [Sc.ScRow(Sc.Debit, 1.0, Some(500), Some(0))]
  {
    var c := HeldRun();
    HeldAcceptance(c);
    hide RunBook, HoldQuoted, AcceptQuote, BookSound;
  }
}
