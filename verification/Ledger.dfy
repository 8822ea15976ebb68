/** The double-entry ledger under the agent wallet (backend/src/agent-wallet/ledger.service.ts). Amounts are kobo. */
module Ledger {
  import opened Wrappers

  type AgentId = nat

  datatype Account = AgentCompensationExpense | AgentPayoutPayable | OperatingCash

  datatype AccountType = Expense | Liability | Asset

  function TypeOf(a: Account): AccountType {
    match a
    case AgentCompensationExpense => Expense
    case AgentPayoutPayable => Liability
    case OperatingCash => Asset
  }

  /** The chart of accounts. */
  const ACCOUNTS: set<Account> := {AgentCompensationExpense, AgentPayoutPayable, OperatingCash}

  datatype Direction = Debit | Credit

  datatype Line = Line(account: Account, direction: Direction, amount: int)

  /** Idempotency keys: one family per real-world event, and any other. */
  datatype Key = EarningKey(walletEntry: nat) | PayoutKey(payout: nat) | OtherKey(name: string)

  datatype Entry = Entry(key: Key, agent: Option<AgentId>, lines: seq<Line>)

  datatype PostError = TooFewLines | NonPositiveLine | OneSided | Unbalanced(debits: int, credits: int)

  /** The accounts created so far, and the entries in posting order. */
  datatype Books = Books(chart: set<Account>, journal: seq<Entry>)

  datatype Posting = Posting(books: Books, result: Result<Entry, PostError>)

  function Total(lines: seq<Line>, d: Direction): int {
    if lines == [] then 0
    else (if lines[0].direction == d then lines[0].amount else 0) + Total(lines[1..], d)
  }

  predicate AllPositive(lines: seq<Line>) {
    forall i :: 0 <= i < |lines| ==> lines[i].amount > 0
  }

  /** The checks made before anything is written, in the order they are made. */
  function Check(lines: seq<Line>): Option<PostError> {
    var debits, credits := Total(lines, Debit), Total(lines, Credit);
    if |lines| < 2 then Some(TooFewLines)
    else if !AllPositive(lines) then Some(NonPositiveLine)
    else if debits == 0 || credits == 0 then Some(OneSided)
    else if debits != credits then Some(Unbalanced(debits, credits))
    else None
  }

  function Find(journal: seq<Entry>, key: Key): Option<Entry> {
    if journal == [] then None
    else if journal[0].key == key then Some(journal[0])
    else Find(journal[1..], key)
  }

  function Post(b: Books, key: Key, agent: Option<AgentId>, lines: seq<Line>): Posting {
    var problem := Check(lines);
    if problem.Some? then Posting(b, Err(problem.value))
    else
      var existing := Find(b.journal, key);
      if existing.Some? then Posting(b, Ok(existing.value))
      else
        var entry := Entry(key, agent, lines);
        Posting(Books(b.chart + ACCOUNTS, b.journal + [entry]), Ok(entry))
  }

  function EarningLines(amount: int): seq<Line> {
    [Line(AgentCompensationExpense, Debit, amount), Line(AgentPayoutPayable, Credit, amount)]
  }

  function PayoutLines(amount: int): seq<Line> {
    [Line(AgentPayoutPayable, Debit, amount), Line(OperatingCash, Credit, amount)]
  }

  // ---- the trial balance ----

  datatype TrialRow = TrialRow(account: Account, debits: int, credits: int, balance: int)

  function LinesOf(journal: seq<Entry>, a: Account): seq<Line> {
    if journal == [] then [] else OnAccount(journal[0].lines, a) + LinesOf(journal[1..], a)
  }

  function OnAccount(lines: seq<Line>, a: Account): seq<Line> {
    if lines == [] then []
    else (if lines[0].account == a then [lines[0]] else []) + OnAccount(lines[1..], a)
  }

  function RowFor(journal: seq<Entry>, a: Account): TrialRow {
    var debits, credits := Total(LinesOf(journal, a), Debit), Total(LinesOf(journal, a), Credit);
    TrialRow(a, debits, credits, if TypeOf(a) == Liability then credits - debits else debits - credits)
  }

  function RowIf(b: Books, a: Account): seq<TrialRow> {
    if a in b.chart then [RowFor(b.journal, a)] else []
  }

  /** One row per account on the chart, in code order. */
  function TrialBalance(b: Books): seq<TrialRow> {
    RowIf(b, AgentCompensationExpense) + RowIf(b, AgentPayoutPayable) + RowIf(b, OperatingCash)
  }

  function SumDebits(rows: seq<TrialRow>): int {
    if rows == [] then 0 else rows[0].debits + SumDebits(rows[1..])
  }

  function SumCredits(rows: seq<TrialRow>): int {
    if rows == [] then 0 else rows[0].credits + SumCredits(rows[1..])
  }

  function SumBalances(rows: seq<TrialRow>, t: AccountType): int {
    if rows == [] then 0
    else (if TypeOf(rows[0].account) == t then rows[0].balance else 0) + SumBalances(rows[1..], t)
  }

  /** What the entries themselves debit or credit, entry by entry. */
  function JournalTotal(journal: seq<Entry>, d: Direction): int {
    if journal == [] then 0 else Total(journal[0].lines, d) + JournalTotal(journal[1..], d)
  }

  // ---- the service ----

  class LedgerService {
    var chart: set<Account>
    var journal: seq<Entry>

    function State(): Books
      reads this
    {
      Books(chart, journal)
    }

    constructor ()
      ensures State() == Books({}, [])
    {
      chart, journal := {}, [];
    }

    method EnsureChartOfAccounts()
      modifies this`chart
      ensures chart == old(chart) + ACCOUNTS
    {
      var accounts := [AgentCompensationExpense, AgentPayoutPayable, OperatingCash];
      for i := 0 to |accounts|
        invariant chart == old(chart) + set a | a in accounts[..i]
      {
        assert accounts[..i + 1] == accounts[..i] + [accounts[i]];
        chart := chart + {accounts[i]};
      }
      assert accounts[..|accounts|] == accounts;
    }

    method PostJournalEntry(key: Key, agent: Option<AgentId>, lines: seq<Line>)
      returns (result: Result<Entry, PostError>)
      modifies this
      ensures Posting(State(), result) == Post(old(State()), key, agent, lines)
      ensures result.Err? ==> State() == old(State())
    {
      if |lines| < 2 {
        return Err(TooFewLines);
      }
      if !AllPositive(lines) {
        return Err(NonPositiveLine);
      }
      var debits, credits := Total(lines, Debit), Total(lines, Credit);
      if debits == 0 || credits == 0 {
        return Err(OneSided);
      }
      if debits != credits {
        return Err(Unbalanced(debits, credits));
      }
      var existing := Find(journal, key);
      if existing.Some? {
        return Ok(existing.value);
      }
      EnsureChartOfAccounts();
      var entry := Entry(key, agent, lines);
      journal := journal + [entry];
      return Ok(entry);
    }

    method PostEarning(walletEntry: nat, agent: AgentId, amount: int) returns (result: Result<Entry, PostError>)
      modifies this
      ensures Posting(State(), result)
           == Post(old(State()), EarningKey(walletEntry), Some(agent), EarningLines(amount))
      ensures result.Err? ==> State() == old(State())
    {
      result := PostJournalEntry(EarningKey(walletEntry), Some(agent), EarningLines(amount));
    }

    method PostPayout(payout: nat, agent: AgentId, amount: int) returns (result: Result<Entry, PostError>)
      modifies this
      ensures Posting(State(), result)
           == Post(old(State()), PayoutKey(payout), Some(agent), PayoutLines(amount))
      ensures result.Err? ==> State() == old(State())
    {
      result := PostJournalEntry(PayoutKey(payout), Some(agent), PayoutLines(amount));
    }
  }

  // ---- runs of postings ----

  datatype PostCall = PostCall(key: Key, agent: Option<AgentId>, lines: seq<Line>)

  function PostAll(b: Books, calls: seq<PostCall>): Books
    decreases |calls|
  {
    if calls == [] then b
    else PostAll(Post(b, calls[0].key, calls[0].agent, calls[0].lines).books, calls[1..])
  }

  predicate KeysDistinct(journal: seq<Entry>) {
    forall i, j :: 0 <= i < j < |journal| ==> journal[i].key != journal[j].key
  }

  predicate HasKey(journal: seq<Entry>, key: Key) {
    exists i :: 0 <= i < |journal| && journal[i].key == key
  }

  /** What the ledger keeps: a full chart once anything is posted, balanced entries, one entry per key. */
  predicate InBalance(b: Books) {
    && (b.chart == ACCOUNTS || (b.chart == {} && b.journal == []))
    && KeysDistinct(b.journal)
    && forall i :: 0 <= i < |b.journal| ==> Check(b.journal[i].lines).None?
  }

  lemma {:induction false} FindFindsKey(journal: seq<Entry>, key: Key)
    ensures Find(journal, key).Some? <==> HasKey(journal, key)
    ensures Find(journal, key).Some? ==> Find(journal, key).value in journal && Find(journal, key).value.key == key
  {
    if journal != [] && journal[0].key != key {
      FindFindsKey(journal[1..], key);
      if HasKey(journal, key) {
        var i :| 0 <= i < |journal| && journal[i].key == key;
        assert journal[1..][i - 1].key == key;
      }
      if HasKey(journal[1..], key) {
        var i :| 0 <= i < |journal[1..]| && journal[1..][i].key == key;
        assert journal[i + 1].key == key;
      }
    }
  }

  lemma PostKeepsBalance(b: Books, key: Key, agent: Option<AgentId>, lines: seq<Line>)
    requires InBalance(b)
    ensures InBalance(Post(b, key, agent, lines).books)
  {
    FindFindsKey(b.journal, key);
  }

  lemma {:induction false} PostAllKeepsBalance(b: Books, calls: seq<PostCall>)
    requires InBalance(b)
    ensures InBalance(PostAll(b, calls))
    decreases |calls|
  {
    if calls != [] {
      PostKeepsBalance(b, calls[0].key, calls[0].agent, calls[0].lines);
      PostAllKeepsBalance(Post(b, calls[0].key, calls[0].agent, calls[0].lines).books, calls[1..]);
    }
  }

  /** Each key of an accepted call, and no other, has an entry; with KeysDistinct, exactly one. */
  lemma {:induction false} KeysOfAcceptedCalls(b: Books, calls: seq<PostCall>, key: Key)
    requires InBalance(b)
    ensures HasKey(PostAll(b, calls).journal, key)
       <==> HasKey(b.journal, key) || exists i :: 0 <= i < |calls| && calls[i].key == key && Check(calls[i].lines).None?
    decreases |calls|
  {
    if calls != [] {
      var c := calls[0];
      var next := Post(b, c.key, c.agent, c.lines).books;
      PostKeepsBalance(b, c.key, c.agent, c.lines);
      KeysOfAcceptedCalls(next, calls[1..], key);
      FindFindsKey(b.journal, c.key);
      assert HasKey(next.journal, key) <==> HasKey(b.journal, key) || (c.key == key && Check(c.lines).None?) by {
        if next.journal != b.journal {
          assert next.journal[|b.journal|].key == c.key;
          assert forall i :: 0 <= i < |b.journal| ==> next.journal[i] == b.journal[i];
        }
      }
      assert forall i :: 0 <= i < |calls[1..]| ==> calls[1..][i] == calls[i + 1];
      assert forall i :: 1 <= i < |calls| ==> calls[i] == calls[1..][i - 1];
    }
  }

  /** Entries are never rewritten: a journal only grows at its end. */
  lemma {:induction false} JournalIsAppendOnly(b: Books, calls: seq<PostCall>)
    ensures b.journal <= PostAll(b, calls).journal
    decreases |calls|
  {
    if calls != [] {
      JournalIsAppendOnly(Post(b, calls[0].key, calls[0].agent, calls[0].lines).books, calls[1..]);
    }
  }

  lemma {:induction false} FindStable(first: seq<Entry>, rest: seq<Entry>, key: Key)
    requires Find(first, key).Some?
    ensures Find(first + rest, key) == Find(first, key)
  {
    if first[0].key != key {
      assert (first + rest)[1..] == first[1..] + rest;
      FindStable(first[1..], rest, key);
    }
  }

  /** Replaying a key after any further postings returns the entry first written and posts nothing. */
  lemma ReplayReturnsOriginal(b: Books, key: Key, agent: Option<AgentId>, lines: seq<Line>,
                              calls: seq<PostCall>, again: seq<Line>)
    requires Check(lines).None? && Check(again).None?
    ensures var posted := Post(b, key, agent, lines);
            var later := PostAll(posted.books, calls);
            Post(later, key, agent, again) == Posting(later, posted.result)
  {
    var posted := Post(b, key, agent, lines);
    FindFindsKey(b.journal, key);
    if Find(b.journal, key).None? {
      FindAppended(b.journal, Entry(key, agent, lines));
    }
    JournalIsAppendOnly(posted.books, calls);
    var later := PostAll(posted.books, calls);
    FindStable(posted.books.journal, later.journal[|posted.books.journal|..], key);
    assert posted.books.journal + later.journal[|posted.books.journal|..] == later.journal;
  }

  lemma {:induction false} FindAppended(journal: seq<Entry>, e: Entry)
    requires Find(journal, e.key).None?
    ensures Find(journal + [e], e.key) == Some(e)
  {
    if journal != [] {
      assert (journal + [e])[1..] == journal[1..] + [e];
      FindAppended(journal[1..], e);
    }
  }

  // ---- what is accepted ----

  lemma {:induction false} PositiveTotals(lines: seq<Line>)
    requires AllPositive(lines) && lines != []
    ensures Total(lines, Debit) >= 0 && Total(lines, Credit) >= 0 && Total(lines, Debit) + Total(lines, Credit) > 0
  {
    if |lines| > 1 {
      assert forall i :: 0 <= i < |lines[1..]| ==> lines[1..][i] == lines[i + 1];
      PositiveTotals(lines[1..]);
    }
  }

  /** A posting is accepted exactly when it has two lines or more, all positive, and its sides agree. */
  lemma AcceptedExactly(b: Books, key: Key, agent: Option<AgentId>, lines: seq<Line>)
    ensures Post(b, key, agent, lines).result.Ok?
       <==> |lines| >= 2 && AllPositive(lines) && Total(lines, Debit) == Total(lines, Credit)
  {
    if lines != [] && AllPositive(lines) {
      PositiveTotals(lines);
    }
  }

  /** Why a posting is refused, in the order the checks are made. */
  lemma RefusedExactly(b: Books, key: Key, agent: Option<AgentId>, lines: seq<Line>)
    ensures var result := Post(b, key, agent, lines).result;
            var debits, credits := Total(lines, Debit), Total(lines, Credit);
            && (|lines| < 2 ==> result == Err(TooFewLines))
            && (|lines| >= 2 && (exists i :: 0 <= i < |lines| && lines[i].amount <= 0) ==> result == Err(NonPositiveLine))
            && (|lines| >= 2 && AllPositive(lines) && (debits <= 0 || credits <= 0) ==> result == Err(OneSided))
            && (|lines| >= 2 && AllPositive(lines) && debits > 0 && credits > 0 && debits != credits ==>
                  result == Err(Unbalanced(debits, credits)))
    ensures Post(b, key, agent, lines).result.Err? ==> Post(b, key, agent, lines).books == b
  {
    if lines != [] && AllPositive(lines) {
      PositiveTotals(lines);
    }
  }

  // ---- the trial balance balances ----

  lemma {:induction false} TotalAppend(a: seq<Line>, b: seq<Line>, d: Direction)
    ensures Total(a + b, d) == Total(a, d) + Total(b, d)
  {
    if a == [] {
      assert a + b == b;
    } else {
      assert (a + b)[1..] == a[1..] + b;
      TotalAppend(a[1..], b, d);
    }
  }

  /** Regrouping: the lines of one entry, split by account, add back up to the entry. */
  lemma {:induction false} LinesByAccount(lines: seq<Line>, d: Direction)
    ensures Total(lines, d)
         == Total(OnAccount(lines, AgentCompensationExpense), d)
          + Total(OnAccount(lines, AgentPayoutPayable), d)
          + Total(OnAccount(lines, OperatingCash), d)
  {
    if lines != [] {
      LinesByAccount(lines[1..], d);
      forall a: Account
        ensures Total(OnAccount(lines, a), d)
             == (if lines[0].account == a && lines[0].direction == d then lines[0].amount else 0)
              + Total(OnAccount(lines[1..], a), d)
      {
        TotalAppend(if lines[0].account == a then [lines[0]] else [], OnAccount(lines[1..], a), d);
      }
    }
  }

  lemma {:induction false} JournalByAccount(journal: seq<Entry>, d: Direction)
    ensures JournalTotal(journal, d)
         == Total(LinesOf(journal, AgentCompensationExpense), d)
          + Total(LinesOf(journal, AgentPayoutPayable), d)
          + Total(LinesOf(journal, OperatingCash), d)
  {
    if journal != [] {
      LinesByAccount(journal[0].lines, d);
      JournalByAccount(journal[1..], d);
      forall a: Account
        ensures Total(LinesOf(journal, a), d)
             == Total(OnAccount(journal[0].lines, a), d) + Total(LinesOf(journal[1..], a), d)
      {
        TotalAppend(OnAccount(journal[0].lines, a), LinesOf(journal[1..], a), d);
      }
    }
  }

  lemma {:induction false} JournalSidesEqual(journal: seq<Entry>)
    requires forall i :: 0 <= i < |journal| ==> Check(journal[i].lines).None?
    ensures JournalTotal(journal, Debit) == JournalTotal(journal, Credit)
  {
    if journal != [] {
      assert Check(journal[0].lines).None?;
      forall i | 0 <= i < |journal[1..]|
        ensures Check(journal[1..][i].lines).None?
      {
        assert journal[1..][i] == journal[i + 1];
      }
      JournalSidesEqual(journal[1..]);
    }
  }

  lemma SumsOfThree(a: TrialRow, b: TrialRow, c: TrialRow)
    ensures SumDebits([a, b, c]) == a.debits + b.debits + c.debits
    ensures SumCredits([a, b, c]) == a.credits + b.credits + c.credits
    ensures forall t :: SumBalances([a, b, c], t)
              == (if TypeOf(a.account) == t then a.balance else 0)
               + (if TypeOf(b.account) == t then b.balance else 0)
               + (if TypeOf(c.account) == t then c.balance else 0)
  {
    assert [a, b, c][1..] == [b, c] && [b, c][1..] == [c] && [c][1..] == [];
    assert SumCredits([c][1..]) == 0;
    assert SumDebits([c]) == c.debits && SumCredits([c]) == c.credits;
    assert SumDebits([b, c]) == b.debits + c.debits && SumCredits([b, c]) == b.credits + c.credits;
    forall t
      ensures SumBalances([b, c], t) == (if TypeOf(b.account) == t then b.balance else 0)
                                      + (if TypeOf(c.account) == t then c.balance else 0)
    {
      assert SumBalances([c], t) == if TypeOf(c.account) == t then c.balance else 0;
    }
  }

  /** For any calls whatever, debits equal credits over the accounts, and assets plus expenses equal liabilities. */
  lemma TrialBalanceBalances(calls: seq<PostCall>)
    ensures var b := PostAll(Books({}, []), calls);
            var rows := TrialBalance(b);
            && SumDebits(rows) == SumCredits(rows) == JournalTotal(b.journal, Debit)
            && SumBalances(rows, Asset) + SumBalances(rows, Expense) == SumBalances(rows, Liability)
            && KeysDistinct(b.journal)
  {
    var b := PostAll(Books({}, []), calls);
    PostAllKeepsBalance(Books({}, []), calls);
    JournalSidesEqual(b.journal);
    if b.chart == ACCOUNTS {
      var expense, payable := RowFor(b.journal, AgentCompensationExpense), RowFor(b.journal, AgentPayoutPayable);
      var cash := RowFor(b.journal, OperatingCash);
      assert TrialBalance(b) == [expense, payable, cash];
      SumsOfThree(expense, payable, cash);
      JournalByAccount(b.journal, Debit);
      JournalByAccount(b.journal, Credit);
    }
  }
}
