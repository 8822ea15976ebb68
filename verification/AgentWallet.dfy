/** The agent wallet: cached balances kept beside the journal (backend/src/agent-wallet/agent-wallet.service.ts). */
module AgentWallet {
  import opened Wrappers
  import opened CaseStateMachine
  import opened Ledger

  datatype Wallet = Wallet(available: int, earned: int, paid: int)

  datatype EntryKind = Earned | PaidOut

  datatype WalletEntry = WalletEntry(agent: AgentId, kind: EntryKind, amount: int)

  datatype PayoutRow = PayoutRow(agent: AgentId, amount: int)

  /** Wallet entries and payouts are identified by their position in their table. */
  datatype WalletState = WalletState(
    wallets: map<AgentId, Wallet>,
    entries: seq<WalletEntry>,
    payouts: seq<PayoutRow>,
    books: Books)

  datatype WalletError =
    | CaseNotFound
    | QcNotPassed(status: CaseStatus)
    | NoFieldAgent
    | AgentNotFound
    | ExceedsAvailable(amount: int, available: int)
    | NoWallet
    | PostingRejected(error: PostError)

  datatype WalletOutcome = WalletOutcome(next: WalletState, error: Option<WalletError>)

  const EMPTY_WALLET := Wallet(0, 0, 0)

  const NOTHING_RECORDED := WalletState(map[], [], [], Books({}, []))

  predicate QcPassed(s: CaseStatus) {
    s in [Approved, Completed, Closed]
  }

  function WalletOf(s: WalletState, a: AgentId): Wallet {
    if a in s.wallets then s.wallets[a] else EMPTY_WALLET
  }

  /** The wallet row is created before the transaction opens, so it survives a rejected posting. */
  function RecordEarning(s: WalletState, caseStatus: Option<CaseStatus>, agent: Option<AgentId>, amount: int): WalletOutcome {
    if caseStatus.None? then WalletOutcome(s, Some(CaseNotFound))
    else if !QcPassed(caseStatus.value) then WalletOutcome(s, Some(QcNotPassed(caseStatus.value)))
    else if agent.None? then WalletOutcome(s, Some(NoFieldAgent))
    else
      var a := agent.value;
      var w := WalletOf(s, a);
      var posting := Post(s.books, EarningKey(|s.entries|), Some(a), EarningLines(amount));
      if posting.result.Err? then
        WalletOutcome(s.(wallets := s.wallets[a := w]), Some(PostingRejected(posting.result.error)))
      else
        WalletOutcome(
          WalletState(
            s.wallets[a := Wallet(w.available + amount, w.earned + amount, w.paid)],
            s.entries + [WalletEntry(a, Earned, amount)],
            s.payouts,
            posting.books),
          None)
  }

  function RecordPayout(s: WalletState, agentExists: bool, a: AgentId, amount: int): WalletOutcome {
    var w := WalletOf(s, a);
    if !agentExists then WalletOutcome(s, Some(AgentNotFound))
    else if amount > w.available then WalletOutcome(s, Some(ExceedsAvailable(amount, w.available)))
    else if a !in s.wallets then WalletOutcome(s, Some(NoWallet))
    else
      var posting := Post(s.books, PayoutKey(|s.payouts|), Some(a), PayoutLines(amount));
      if posting.result.Err? then WalletOutcome(s, Some(PostingRejected(posting.result.error)))
      else
        WalletOutcome(
          WalletState(
            s.wallets[a := Wallet(w.available - amount, w.earned, w.paid + amount)],
            s.entries + [WalletEntry(a, PaidOut, amount)],
            s.payouts + [PayoutRow(a, amount)],
            posting.books),
          None)
  }

  // ---- the service ----

  class AgentWalletService {
    const ledger: LedgerService
    var wallets: map<AgentId, Wallet>
    var entries: seq<WalletEntry>
    var payouts: seq<PayoutRow>

    function State(): WalletState
      reads this, ledger
    {
      WalletState(wallets, entries, payouts, ledger.State())
    }

    constructor (ledger: LedgerService)
      ensures this.ledger == ledger && wallets == map[] && entries == [] && payouts == []
    {
      this.ledger := ledger;
      wallets, entries, payouts := map[], [], [];
    }

    method Earn(caseStatus: Option<CaseStatus>, agent: Option<AgentId>, amount: int)
      returns (error: Option<WalletError>)
      modifies this, ledger
      ensures WalletOutcome(State(), error) == RecordEarning(old(State()), caseStatus, agent, amount)
    {
      hide Post, EarningLines;
      if caseStatus.None? {
        return Some(CaseNotFound);
      }
      if !QcPassed(caseStatus.value) {
        return Some(QcNotPassed(caseStatus.value));
      }
      if agent.None? {
        return Some(NoFieldAgent);
      }
      var a := agent.value;
      if a !in wallets {
        wallets := wallets[a := EMPTY_WALLET];
      }
      // The transaction: on a rejected posting every write below is rolled back.
      var savedWallets, savedEntries := wallets, entries;
      var id := |entries|;
      entries := entries + [WalletEntry(a, Earned, amount)];
      var w := wallets[a];
      wallets := wallets[a := w.(available := w.available + amount, earned := w.earned + amount)];
      var posted := ledger.PostEarning(id, a, amount);
      if posted.Err? {
        wallets, entries := savedWallets, savedEntries;
        return Some(PostingRejected(posted.error));
      }
      return None;
    }

    method PayOut(agentExists: bool, a: AgentId, amount: int) returns (error: Option<WalletError>)
      modifies this, ledger
      ensures WalletOutcome(State(), error) == RecordPayout(old(State()), agentExists, a, amount)
    {
      hide Post, PayoutLines;
      if !agentExists {
        return Some(AgentNotFound);
      }
      var available := 0;
      if a in wallets {
        available := wallets[a].available;
      }
      if amount > available {
        return Some(ExceedsAvailable(amount, available));
      }
      if a !in wallets {
        return Some(NoWallet);
      }
      // The transaction: on a rejected posting every write below is rolled back.
      var savedWallets, savedEntries, savedPayouts := wallets, entries, payouts;
      var id := |payouts|;
      payouts := payouts + [PayoutRow(a, amount)];
      var w := wallets[a];
      wallets := wallets[a := w.(available := w.available - amount, paid := w.paid + amount)];
      entries := entries + [WalletEntry(a, PaidOut, amount)];
      var posted := ledger.PostPayout(id, a, amount);
      if posted.Err? {
        wallets, entries, payouts := savedWallets, savedEntries, savedPayouts;
        return Some(PostingRejected(posted.error));
      }
      return None;
    }
  }

  // ---- runs ----

  datatype WalletCall =
    | EarnCall(caseStatus: Option<CaseStatus>, fieldAgent: Option<AgentId>, amount: int)
    | PayOutCall(agentExists: bool, agent: AgentId, amount: int)

  function Step(s: WalletState, c: WalletCall): WalletOutcome {
    match c
    case EarnCall(status, fieldAgent, amount) => RecordEarning(s, status, fieldAgent, amount)
    case PayOutCall(registered, agent, amount) => RecordPayout(s, registered, agent, amount)
  }

  function Run(s: WalletState, calls: seq<WalletCall>): WalletState
    decreases |calls|
  {
    if calls == [] then s else Run(Step(s, calls[0]).next, calls[1..])
  }

  /** Total of one agent's wallet entries of one kind. */
  function SumOf(entries: seq<WalletEntry>, a: AgentId, kind: EntryKind): int {
    if entries == [] then 0
    else
      var e := entries[|entries| - 1];
      (if e.agent == a && e.kind == kind then e.amount else 0) + SumOf(entries[..|entries| - 1], a, kind)
  }

  /** Credits less debits on one account, over the journal entries that name one agent. */
  function NetCredit(journal: seq<Entry>, a: AgentId, account: Account): int {
    if journal == [] then 0
    else
      var e := journal[|journal| - 1];
      (if e.agent == Some(a) then Total(OnAccount(e.lines, account), Credit) - Total(OnAccount(e.lines, account), Debit) else 0)
      + NetCredit(journal[..|journal| - 1], a, account)
  }

  /** The cached wallet of one agent agrees with its entries and with the ledger. */
  predicate Agrees(s: WalletState, a: AgentId) {
    var w := WalletOf(s, a);
    && w.earned == SumOf(s.entries, a, Earned)
    && w.paid == SumOf(s.entries, a, PaidOut)
    && w.available == w.earned - w.paid
    && w.available == NetCredit(s.books.journal, a, AgentPayoutPayable)
    && w.earned == -NetCredit(s.books.journal, a, AgentCompensationExpense)
    && w.paid == NetCredit(s.books.journal, a, OperatingCash)
    && 0 <= w.available
  }

  /** Every journal key belongs to a wallet entry or payout already recorded, so new keys are new. */
  predicate KeysIssued(s: WalletState) {
    forall i :: 0 <= i < |s.books.journal| ==>
      match s.books.journal[i].key
      case EarningKey(n) => n < |s.entries|
      case PayoutKey(n) => n < |s.payouts|
      case OtherKey(_) => false
  }

  ghost predicate Sound(s: WalletState) {
    && InBalance(s.books)
    && KeysIssued(s)
    && forall a: AgentId :: Agrees(s, a)
  }

  lemma PairOfLines(x: Line, y: Line, a: Account, d: Direction)
    ensures Total(OnAccount([x, y], a), d)
         == (if x.account == a && x.direction == d then x.amount else 0)
          + (if y.account == a && y.direction == d then y.amount else 0)
    ensures Total([x, y], d)
         == (if x.direction == d then x.amount else 0) + (if y.direction == d then y.amount else 0)
  {
    assert [x, y][1..] == [y] && [y][1..] == [];
    assert OnAccount([y], a) == if y.account == a then [y] else [];
    TotalAppend([x], [y], d);
    assert [x] + [y] == [x, y];
    TotalAppend(if x.account == a then [x] else [], OnAccount([y], a), d);
    assert [x][1..] == [];
  }

  /** What an earning and a payout each move on every account. */
  lemma TwoLines(amount: int, a: Account, d: Direction)
    ensures Total(OnAccount(EarningLines(amount), a), d)
         == if (a == AgentCompensationExpense && d == Debit) || (a == AgentPayoutPayable && d == Credit) then amount else 0
    ensures Total(OnAccount(PayoutLines(amount), a), d)
         == if (a == AgentPayoutPayable && d == Debit) || (a == OperatingCash && d == Credit) then amount else 0
    ensures Total(EarningLines(amount), d) == amount && Total(PayoutLines(amount), d) == amount
  {
    PairOfLines(EarningLines(amount)[0], EarningLines(amount)[1], a, d);
    PairOfLines(PayoutLines(amount)[0], PayoutLines(amount)[1], a, d);
  }

  /** A posting of the wallet is accepted exactly when its amount is positive. */
  lemma PostingAccepted(amount: int)
    ensures Check(EarningLines(amount)).None? <==> amount > 0
    ensures Check(PayoutLines(amount)).None? <==> amount > 0
  {
    TwoLines(amount, AgentPayoutPayable, Debit);
    TwoLines(amount, AgentPayoutPayable, Credit);
    assert EarningLines(amount)[0].amount == amount && PayoutLines(amount)[0].amount == amount;
  }

  lemma JournalGrows(s: WalletState, key: Key, agent: AgentId, lines: seq<Line>)
    requires Sound(s) && Check(lines).None? && !HasKey(s.books.journal, key)
    ensures Post(s.books, key, Some(agent), lines).books.journal == s.books.journal + [Entry(key, Some(agent), lines)]
    ensures Post(s.books, key, Some(agent), lines).result.Ok?
    ensures InBalance(Post(s.books, key, Some(agent), lines).books)
  {
    FindFindsKey(s.books.journal, key);
    PostKeepsBalance(s.books, key, Some(agent), lines);
  }

  lemma SumAppend(entries: seq<WalletEntry>, e: WalletEntry, a: AgentId, kind: EntryKind)
    ensures SumOf(entries + [e], a, kind)
         == SumOf(entries, a, kind) + if e.agent == a && e.kind == kind then e.amount else 0
  {
    assert (entries + [e])[..|entries|] == entries;
  }

  lemma NetAppend(journal: seq<Entry>, e: Entry, a: AgentId, account: Account)
    ensures NetCredit(journal + [e], a, account)
         == NetCredit(journal, a, account)
          + if e.agent == Some(a) then Total(OnAccount(e.lines, account), Credit) - Total(OnAccount(e.lines, account), Debit) else 0
  {
    assert (journal + [e])[..|journal|] == journal;
  }

  /** How one posting moves one agent's share of one account. */
  lemma NetOfRecord(s: WalletState, e: WalletEntry, posted: Entry, a: AgentId, account: Account)
    requires posted.agent == Some(e.agent)
    requires posted.lines == if e.kind == Earned then EarningLines(e.amount) else PayoutLines(e.amount)
    ensures NetCredit(s.books.journal + [posted], a, account)
         == NetCredit(s.books.journal, a, account)
          + if e.agent != a then 0
            else if e.kind == Earned then
              (if account == AgentPayoutPayable then e.amount else if account == AgentCompensationExpense then -e.amount else 0)
            else
              (if account == OperatingCash then e.amount else if account == AgentPayoutPayable then -e.amount else 0)
  {
    NetAppend(s.books.journal, posted, a, account);
    TwoLines(e.amount, account, Debit);
    TwoLines(e.amount, account, Credit);
  }

  /** One agent's view of recording an entry together with the posting that backs it. */
  lemma RecordAgrees(s: WalletState, next: WalletState, e: WalletEntry, posted: Entry, a: AgentId)
    requires Agrees(s, a)
    requires next.entries == s.entries + [e] && next.books.journal == s.books.journal + [posted]
    requires posted.agent == Some(e.agent) && (e.kind == PaidOut ==> e.amount <= WalletOf(s, e.agent).available)
    requires posted.lines == if e.kind == Earned then EarningLines(e.amount) else PayoutLines(e.amount)
    requires e.amount > 0
    requires var w := WalletOf(s, e.agent);
             next.wallets == s.wallets[e.agent := if e.kind == Earned then Wallet(w.available + e.amount, w.earned + e.amount, w.paid)
                                                  else Wallet(w.available - e.amount, w.earned, w.paid + e.amount)]
    ensures Agrees(next, a)
  {
    SumAppend(s.entries, e, a, Earned);
    SumAppend(s.entries, e, a, PaidOut);
    NetOfRecord(s, e, posted, a, AgentPayoutPayable);
    NetOfRecord(s, e, posted, a, AgentCompensationExpense);
    NetOfRecord(s, e, posted, a, OperatingCash);
  }

  lemma EarningKeeps(s: WalletState, caseStatus: Option<CaseStatus>, agent: Option<AgentId>, amount: int)
    requires Sound(s)
    ensures Sound(RecordEarning(s, caseStatus, agent, amount).next)
  {
    PostingAccepted(amount);
    if caseStatus.Some? && QcPassed(caseStatus.value) && agent.Some? {
      var next := RecordEarning(s, caseStatus, agent, amount).next;
      var key, lines := EarningKey(|s.entries|), EarningLines(amount);
      if amount > 0 {
        JournalGrows(s, key, agent.value, lines);
        forall a: AgentId
          ensures Agrees(next, a)
        {
          RecordAgrees(s, next, WalletEntry(agent.value, Earned, amount), Entry(key, agent, lines), a);
        }
      } else {
        forall a: AgentId
          ensures Agrees(next, a)
        {
          assert Agrees(s, a) && WalletOf(next, a) == WalletOf(s, a);
        }
      }
    }
  }

  lemma PayoutKeeps(s: WalletState, agentExists: bool, agent: AgentId, amount: int)
    requires Sound(s)
    ensures Sound(RecordPayout(s, agentExists, agent, amount).next)
  {
    PostingAccepted(amount);
    var next := RecordPayout(s, agentExists, agent, amount).next;
    if agentExists && agent in s.wallets && amount <= s.wallets[agent].available && amount > 0 {
      var key, lines := PayoutKey(|s.payouts|), PayoutLines(amount);
      JournalGrows(s, key, agent, lines);
      forall a: AgentId
        ensures Agrees(next, a)
      {
        RecordAgrees(s, next, WalletEntry(agent, PaidOut, amount), Entry(key, Some(agent), lines), a);
      }
    }
  }

  lemma {:induction false} RunKeeps(s: WalletState, calls: seq<WalletCall>)
    requires Sound(s)
    ensures Sound(Run(s, calls))
    decreases |calls|
  {
    if calls != [] {
      match calls[0] {
        case EarnCall(status, fieldAgent, amount) => EarningKeeps(s, status, fieldAgent, amount);
        case PayOutCall(registered, agent, amount) => PayoutKeeps(s, registered, agent, amount);
      }
      RunKeeps(Step(s, calls[0]).next, calls[1..]);
    }
  }

  /** The wallet refines the ledger, for every agent after every run. */
  lemma WalletRefinesLedger(calls: seq<WalletCall>, a: AgentId)
    ensures Agrees(Run(NOTHING_RECORDED, calls), a)
    ensures InBalance(Run(NOTHING_RECORDED, calls).books)
  {
    RunKeeps(NOTHING_RECORDED, calls);
  }

  /** A call that fails leaves every balance, entry, payout and posting as it was. */
  lemma FailedCallsChangeNothing(s: WalletState, c: WalletCall)
    requires Step(s, c).error.Some?
    ensures var next := Step(s, c).next;
            && next.entries == s.entries && next.payouts == s.payouts && next.books == s.books
            && forall a: AgentId :: WalletOf(next, a) == WalletOf(s, a)
  {
  }

  /** A payout goes through exactly when it is positive and covered by the agent's wallet. */
  lemma PayoutAccepted(s: WalletState, agentExists: bool, a: AgentId, amount: int)
    requires Sound(s)
    ensures RecordPayout(s, agentExists, a, amount).error.None?
       <==> agentExists && 0 < amount <= WalletOf(s, a).available
  {
    PostingAccepted(amount);
    if amount > 0 {
      FindFindsKey(s.books.journal, PayoutKey(|s.payouts|));
    }
  }

  /** An earning goes through exactly when it is positive, on a case the customer has approved, for its field agent. */
  lemma EarningAccepted(s: WalletState, caseStatus: Option<CaseStatus>, agent: Option<AgentId>, amount: int)
    requires Sound(s)
    ensures RecordEarning(s, caseStatus, agent, amount).error.None?
       <==> caseStatus in {Some(Approved), Some(Completed), Some(Closed)} && agent.Some? && amount > 0
  {
    PostingAccepted(amount);
    if amount > 0 {
      FindFindsKey(s.books.journal, EarningKey(|s.entries|));
    }
  }

  /** Why an earning or a payout is refused, in the order the guards are met. */
  lemma RefusedExactly(s: WalletState, caseStatus: Option<CaseStatus>, fieldAgent: Option<AgentId>,
                       agentExists: bool, a: AgentId, amount: int)
    requires Sound(s)
    ensures RecordEarning(s, caseStatus, fieldAgent, amount).error
         == if caseStatus == None then Some(CaseNotFound)
            else if caseStatus.value !in {Approved, Completed, Closed} then Some(QcNotPassed(caseStatus.value))
            else if fieldAgent == None then Some(NoFieldAgent)
            else if amount <= 0 then Some(PostingRejected(NonPositiveLine)) else None
    ensures RecordPayout(s, agentExists, a, amount).error
         == if !agentExists then Some(AgentNotFound)
            else if amount > WalletOf(s, a).available then Some(ExceedsAvailable(amount, WalletOf(s, a).available))
            else if a !in s.wallets then Some(NoWallet)
            else if amount <= 0 then Some(PostingRejected(NonPositiveLine)) else None
  {
    EarningAccepted(s, caseStatus, fieldAgent, amount);
    PayoutAccepted(s, agentExists, a, amount);
    assert EarningLines(amount)[0].amount == amount && PayoutLines(amount)[0].amount == amount;
  }

  /** Payout rows are the payout entries, in order. */
  function PayoutsOf(entries: seq<WalletEntry>): seq<PayoutRow> {
    if entries == [] then []
    else
      var e := entries[|entries| - 1];
      PayoutsOf(entries[..|entries| - 1]) + if e.kind == PaidOut then [PayoutRow(e.agent, e.amount)] else []
  }

  lemma PayoutsAppend(entries: seq<WalletEntry>, e: WalletEntry)
    ensures PayoutsOf(entries + [e]) == PayoutsOf(entries) + if e.kind == PaidOut then [PayoutRow(e.agent, e.amount)] else []
  {
    assert (entries + [e])[..|entries|] == entries;
  }

  /** A call records at most one entry, with a payout row exactly when that is a payout. */
  lemma OneEntry(s: WalletState, c: WalletCall)
    ensures var next := Step(s, c).next;
            || (next.entries == s.entries && next.payouts == s.payouts)
            || (exists e :: next.entries == s.entries + [e]
                         && next.payouts == s.payouts + if e.kind == PaidOut then [PayoutRow(e.agent, e.amount)] else [])
  {
    hide Post, EarningLines, PayoutLines;
    var next := Step(s, c).next;
    if |next.entries| > |s.entries| {
      var e := next.entries[|s.entries|];
      assert next.entries == s.entries + [e];
      assert s.payouts + [] == s.payouts;
    }
  }

  lemma {:induction false} PayoutsMatch(s: WalletState, calls: seq<WalletCall>)
    requires s.payouts == PayoutsOf(s.entries)
    ensures Run(s, calls).payouts == PayoutsOf(Run(s, calls).entries)
    decreases |calls|
  {
    hide Step, PayoutsOf;
    if calls != [] {
      var next := Step(s, calls[0]).next;
      OneEntry(s, calls[0]);
      if next.entries != s.entries {
        var e :| next.entries == s.entries + [e]
              && next.payouts == s.payouts + if e.kind == PaidOut then [PayoutRow(e.agent, e.amount)] else [];
        PayoutsAppend(s.entries, e);
      }
      PayoutsMatch(next, calls[1..]);
    }
  }

  /** Over every run, the payout rows are exactly the payouts entered in the wallets. */
  lemma PayoutsMatchEntries(calls: seq<WalletCall>)
    ensures Run(NOTHING_RECORDED, calls).payouts == PayoutsOf(Run(NOTHING_RECORDED, calls).entries)
  {
    PayoutsMatch(NOTHING_RECORDED, calls);
  }

  /** One agent's wallet worked out from the calls alone: what it earned on finished cases, and the payouts that
      were positive and covered at the time. */
  function Expected(w: Wallet, calls: seq<WalletCall>, a: AgentId): Wallet
    decreases |calls|
  {
    if calls == [] then w
    else
      var c := calls[0];
      var next :=
        match c
        case EarnCall(status, fieldAgent, amount) =>
          if status in {Some(Approved), Some(Completed), Some(Closed)} && fieldAgent == Some(a) && amount > 0
          then Wallet(w.available + amount, w.earned + amount, w.paid) else w
        case PayOutCall(agentExists, agent, amount) =>
          if agentExists && agent == a && 0 < amount <= w.available
          then Wallet(w.available - amount, w.earned, w.paid + amount) else w;
      Expected(next, calls[1..], a)
  }

  lemma {:induction false} WalletsFollow(s: WalletState, calls: seq<WalletCall>, a: AgentId)
    requires Sound(s)
    ensures WalletOf(Run(s, calls), a) == Expected(WalletOf(s, a), calls, a)
    decreases |calls|
  {
    if calls != [] {
      var next := Step(s, calls[0]).next;
      match calls[0] {
        case EarnCall(status, fieldAgent, amount) =>
          EarningKeeps(s, status, fieldAgent, amount);
          EarningAccepted(s, status, fieldAgent, amount);
        case PayOutCall(registered, agent, amount) =>
          PayoutKeeps(s, registered, agent, amount);
          PayoutAccepted(s, registered, agent, amount);
      }
      if Step(s, calls[0]).error.Some? {
        FailedCallsChangeNothing(s, calls[0]);
      }
      WalletsFollow(next, calls[1..], a);
    }
  }

  /** Over every run, each agent has exactly the earnings and payouts the calls gave them. */
  lemma WalletsFollowCalls(calls: seq<WalletCall>, a: AgentId)
    ensures WalletOf(Run(NOTHING_RECORDED, calls), a) == Expected(EMPTY_WALLET, calls, a)
  {
    WalletsFollow(NOTHING_RECORDED, calls, a);
  }

  // ---- the trial balance against the wallets ----

  /** The three cached figures of a wallet. */
  datatype Figure = AvailableFigure | EarnedFigure | PaidFigure

  function FigureOf(w: Wallet, f: Figure): int {
    match f
    case AvailableFigure => w.available
    case EarnedFigure => w.earned
    case PaidFigure => w.paid
  }

  /** A figure summed over all wallets. */
  ghost function SumOver(wallets: map<AgentId, Wallet>, f: Figure): int {
    if wallets == map[] then 0
    else
      var a :| a in wallets;
      FigureOf(wallets[a], f) + SumOver(wallets - {a}, f)
  }

  lemma {:induction false} SumOverSplit(wallets: map<AgentId, Wallet>, a: AgentId, f: Figure)
    requires a in wallets
    ensures SumOver(wallets, f) == FigureOf(wallets[a], f) + SumOver(wallets - {a}, f)
    decreases |wallets|
  {
    var b :| b in wallets && SumOver(wallets, f) == FigureOf(wallets[b], f) + SumOver(wallets - {b}, f);
    if b != a {
      SumOverSplit(wallets - {b}, a, f);
      SumOverSplit(wallets - {a}, b, f);
      assert wallets - {a} - {b} == wallets - {b} - {a};
    }
  }

  lemma SumOverSet(wallets: map<AgentId, Wallet>, a: AgentId, w: Wallet, f: Figure)
    ensures SumOver(wallets[a := w], f)
         == SumOver(wallets, f) + FigureOf(w, f) - if a in wallets then FigureOf(wallets[a], f) else 0
  {
    SumOverSplit(wallets[a := w], a, f);
    assert wallets[a := w] - {a} == wallets - {a};
    if a in wallets {
      SumOverSplit(wallets, a, f);
    } else {
      assert wallets - {a} == wallets;
    }
  }

  lemma {:induction false} LinesOfAppend(journal: seq<Entry>, e: Entry, account: Account)
    ensures LinesOf(journal + [e], account) == LinesOf(journal, account) + OnAccount(e.lines, account)
  {
    if journal == [] {
      assert journal + [e] == [e] && [e][1..] == [];
      assert LinesOf([e], account) == OnAccount(e.lines, account) + LinesOf([], account);
    } else {
      assert (journal + [e])[1..] == journal[1..] + [e];
      LinesOfAppend(journal[1..], e, account);
    }
  }

  /** How an earning, or a payout, moves the trial balance row of an account. */
  lemma RowMoves(journal: seq<Entry>, e: Entry, account: Account, amount: int, earning: bool)
    requires e.lines == if earning then EarningLines(amount) else PayoutLines(amount)
    ensures var row, after := RowFor(journal, account), RowFor(journal + [e], account);
            && after.debits == row.debits + (if account == (if earning then AgentCompensationExpense else AgentPayoutPayable) then amount else 0)
            && after.credits == row.credits + (if account == (if earning then AgentPayoutPayable else OperatingCash) then amount else 0)
  {
    LinesOfAppend(journal, e, account);
    TotalAppend(LinesOf(journal, account), OnAccount(e.lines, account), Debit);
    TotalAppend(LinesOf(journal, account), OnAccount(e.lines, account), Credit);
    TwoLines(amount, account, Debit);
    TwoLines(amount, account, Credit);
    hide LinesOf, OnAccount, EarningLines, PayoutLines, Total;
  }

  /** Expense debits and payable credits are what all agents earned; payable debits and cash credits what was paid. */
  ghost predicate RowsReconcile(s: WalletState) {
    var expense, payable := RowFor(s.books.journal, AgentCompensationExpense), RowFor(s.books.journal, AgentPayoutPayable);
    var cash := RowFor(s.books.journal, OperatingCash);
    && expense.debits == payable.credits == SumOver(s.wallets, EarnedFigure)
    && payable.debits == cash.credits == SumOver(s.wallets, PaidFigure)
    && expense.credits == cash.debits == 0
    && SumOver(s.wallets, AvailableFigure) == SumOver(s.wallets, EarnedFigure) - SumOver(s.wallets, PaidFigure)
  }

  lemma RecordReconciles(s: WalletState, next: WalletState, a: AgentId, posted: Entry, amount: int, earning: bool)
    requires RowsReconcile(s) && next.books.journal == s.books.journal + [posted]
    requires posted.lines == if earning then EarningLines(amount) else PayoutLines(amount)
    requires var was := WalletOf(s, a);
             next.wallets == s.wallets[a := if earning then Wallet(was.available + amount, was.earned + amount, was.paid)
                                            else Wallet(was.available - amount, was.earned, was.paid + amount)]
    ensures RowsReconcile(next)
  {
    var journal, w := s.books.journal, next.wallets[a];
    RowMoves(journal, posted, AgentCompensationExpense, amount, earning);
    RowMoves(journal, posted, AgentPayoutPayable, amount, earning);
    RowMoves(journal, posted, OperatingCash, amount, earning);
    SumOverSet(s.wallets, a, w, AvailableFigure);
    SumOverSet(s.wallets, a, w, EarnedFigure);
    SumOverSet(s.wallets, a, w, PaidFigure);
    hide RowFor, EarningLines, PayoutLines, SumOver;
  }

  lemma StepReconciles(s: WalletState, c: WalletCall)
    requires Sound(s) && RowsReconcile(s)
    ensures RowsReconcile(Step(s, c).next)
  {
    var o := Step(s, c);
    PostingAccepted(c.amount);
    hide RowsReconcile;
    if o.error.Some? {
      FailureReconciles(s, c);
    } else {
      match c
      case EarnCall(status, fieldAgent, amount) =>
        EarningAccepted(s, status, fieldAgent, amount);
        JournalGrows(s, EarningKey(|s.entries|), fieldAgent.value, EarningLines(amount));
        RecordReconciles(s, o.next, fieldAgent.value, Entry(EarningKey(|s.entries|), fieldAgent, EarningLines(amount)), amount, true);
      case PayOutCall(registered, agent, amount) =>
        PayoutAccepted(s, registered, agent, amount);
        JournalGrows(s, PayoutKey(|s.payouts|), agent, PayoutLines(amount));
        RecordReconciles(s, o.next, agent, Entry(PayoutKey(|s.payouts|), Some(agent), PayoutLines(amount)), amount, false);
    }
  }

  /** A failed call may open an empty wallet, which adds nothing. */
  lemma FailureReconciles(s: WalletState, c: WalletCall)
    requires RowsReconcile(s) && Step(s, c).error.Some?
    ensures RowsReconcile(Step(s, c).next)
  {
    var next := Step(s, c).next;
    FailedCallsChangeNothing(s, c);
    hide RowFor;
    if next.wallets != s.wallets {
      var a := c.fieldAgent.value;
      SumOverSet(s.wallets, a, WalletOf(s, a), AvailableFigure);
      SumOverSet(s.wallets, a, WalletOf(s, a), EarnedFigure);
      SumOverSet(s.wallets, a, WalletOf(s, a), PaidFigure);
    }
  }

  lemma {:induction false} RunReconciles(s: WalletState, calls: seq<WalletCall>)
    requires Sound(s) && RowsReconcile(s)
    ensures RowsReconcile(Run(s, calls))
    decreases |calls|
  {
    hide RowsReconcile, Step;
    if calls != [] {
      StepReconciles(s, calls[0]);
      RunKeeps(s, [calls[0]]);
      assert Run(s, [calls[0]]) == Step(s, calls[0]).next by { assert [calls[0]][1..] == []; }
      RunReconciles(Step(s, calls[0]).next, calls[1..]);
    }
  }

  /** Every figure of the trial balance, against the wallets: the expense is what all agents earned, cash went out as
      what they were paid, and the payable is the difference, which is what they can still draw. */
  lemma TrialBalanceReconciles(calls: seq<WalletCall>)
    ensures var s := Run(NOTHING_RECORDED, calls);
            var earned, paid := SumOver(s.wallets, EarnedFigure), SumOver(s.wallets, PaidFigure);
            && RowFor(s.books.journal, AgentCompensationExpense) == TrialRow(AgentCompensationExpense, earned, 0, earned)
            && RowFor(s.books.journal, AgentPayoutPayable) == TrialRow(AgentPayoutPayable, paid, earned, earned - paid)
            && RowFor(s.books.journal, OperatingCash) == TrialRow(OperatingCash, 0, paid, -paid)
            && earned - paid == SumOver(s.wallets, AvailableFigure)
  {
    RunReconciles(NOTHING_RECORDED, calls);
    var s := Run(NOTHING_RECORDED, calls);
    RowBalance(s.books.journal, AgentCompensationExpense);
    RowBalance(s.books.journal, AgentPayoutPayable);
    RowBalance(s.books.journal, OperatingCash);
  }

  lemma RowBalance(journal: seq<Entry>, a: Account)
    ensures var row := RowFor(journal, a);
            row == TrialRow(a, row.debits, row.credits, if a == AgentPayoutPayable then row.credits - row.debits else row.debits - row.credits)
  {
  }

  /** The payable balance of the trial balance is the sum of every agent's wallet. */
  lemma ControlAccountReconciles(calls: seq<WalletCall>)
    ensures var s := Run(NOTHING_RECORDED, calls);
            RowFor(s.books.journal, AgentPayoutPayable).balance == SumOver(s.wallets, AvailableFigure)
  {
    TrialBalanceReconciles(calls);
  }
}
