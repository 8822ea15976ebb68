/** The service-credit ledger of one subscription (backend/src/concierge/sc-ledger.service.ts). USD as exact rationals. */
module ScLedger {
  import opened Rounding
  import opened Wrappers

  type QuoteId = nat

  datatype ScKind = Grant | Debit | Reversal | Adjustment | Expiry

  datatype ScRow = ScRow(kind: ScKind, amountUsd: real, amountNgn: Option<int>, quote: Option<QuoteId>)

  datatype ScError = ReasonRequired | ZeroAdjustment

  function Abs(x: real): real {
    if x < 0.0 then -x else x
  }

  function Max0(x: real): real {
    if x < 0.0 then 0.0 else x
  }

  function Min(x: real, y: real): real {
    if x < y then x else y
  }

  function SignedAmount(kind: ScKind, amount: real): real {
    match kind
    case Grant => Abs(amount)
    case Reversal => Abs(amount)
    case Debit => -Abs(amount)
    case Expiry => -Abs(amount)
    case Adjustment => amount
  }

  /** The balance is never stored: it is folded from the rows every time. */
  function Balance(rows: seq<ScRow>): real {
    if rows == [] then 0.0
    else Balance(rows[..|rows| - 1]) + SignedAmount(rows[|rows| - 1].kind, rows[|rows| - 1].amountUsd)
  }

  function Granted(rows: seq<ScRow>, usd: real): seq<ScRow> {
    rows + [ScRow(Grant, Abs(usd), None, None)]
  }

  datatype Debited = Debited(rows: seq<ScRow>, appliedUsd: real, appliedNgn: int)

  /** A debit is capped at whatever is left; nothing is written when nothing can be applied. */
  function DebitCapped(rows: seq<ScRow>, requestedUsd: real, fxRate: real, quote: Option<QuoteId>): Debited {
    var applied := Max0(Min(requestedUsd, Balance(rows)));
    if requestedUsd <= 0.0 || applied <= 0.0 then Debited(rows, 0.0, 0)
    else
      var ngn := ToNaira(applied, fxRate);
      Debited(rows + [ScRow(Debit, applied, Some(ngn), quote)], applied, ngn)
  }

  /** The rows after a reversal or an adjustment, and the error thrown, if any. */
  datatype Corrected = Corrected(rows: seq<ScRow>, error: Option<ScError>)

  function Reversed(rows: seq<ScRow>, usd: real, hasReason: bool): Corrected {
    if !hasReason then Corrected(rows, Some(ReasonRequired))
    else Corrected(rows + [ScRow(Reversal, Abs(usd), None, None)], None)
  }

  function Adjusted(rows: seq<ScRow>, usd: real, hasReason: bool): Corrected {
    if !hasReason then Corrected(rows, Some(ReasonRequired))
    else if usd == 0.0 then Corrected(rows, Some(ZeroAdjustment))
    else Corrected(rows + [ScRow(Adjustment, usd, None, None)], None)
  }

  // ---- the service ----

  class ScLedgerService {
    var rows: seq<ScRow>

    constructor ()
      ensures rows == []
    {
      rows := [];
    }

    method GrantUsd(usd: real)
      modifies this
      ensures rows == Granted(old(rows), usd)
    {
      rows := rows + [ScRow(Grant, Abs(usd), None, None)];
    }

    /** The fold over the rows, oldest first. */
    method GetBalanceUsd() returns (balance: real)
      ensures balance == Balance(rows)
    {
      balance := 0.0;
      for i := 0 to |rows|
        invariant balance == Balance(rows[..i])
      {
        balance := balance + SignedAmount(rows[i].kind, rows[i].amountUsd);
        assert rows[..i + 1][..i] == rows[..i];
      }
      assert rows[..|rows|] == rows;
    }

    method DebitUsd(requestedUsd: real, fxRate: real, quote: Option<QuoteId>)
      returns (appliedUsd: real, appliedNgn: int)
      modifies this
      ensures Debited(rows, appliedUsd, appliedNgn) == DebitCapped(old(rows), requestedUsd, fxRate, quote)
    {
      hide ToNaira, Balance;
      if requestedUsd <= 0.0 {
        return 0.0, 0;
      }
      var available := GetBalanceUsd();
      appliedUsd := Max0(Min(requestedUsd, available));
      if appliedUsd <= 0.0 {
        return 0.0, 0;
      }
      appliedNgn := ToNaira(appliedUsd, fxRate);
      rows := rows + [ScRow(Debit, appliedUsd, Some(appliedNgn), quote)];
    }

    method ReverseUsd(usd: real, hasReason: bool) returns (error: Option<ScError>)
      modifies this
      ensures Corrected(rows, error) == Reversed(old(rows), usd, hasReason)
    {
      if !hasReason {
        return Some(ReasonRequired);
      }
      rows := rows + [ScRow(Reversal, Abs(usd), None, None)];
      return None;
    }

    method AdjustUsd(usd: real, hasReason: bool) returns (error: Option<ScError>)
      modifies this
      ensures Corrected(rows, error) == Adjusted(old(rows), usd, hasReason)
    {
      if !hasReason {
        return Some(ReasonRequired);
      }
      if usd == 0.0 {
        return Some(ZeroAdjustment);
      }
      rows := rows + [ScRow(Adjustment, usd, None, None)];
      return None;
    }
  }

  // ---- runs ----

  datatype ScCall =
    | GrantCall(usd: real)
    | DebitCall(requested: real, fxRate: real, quote: Option<QuoteId>)
    | ReverseCall(usd: real, hasReason: bool)
    | AdjustCall(usd: real, hasReason: bool)

  function Step(rows: seq<ScRow>, c: ScCall): seq<ScRow> {
    match c
    case GrantCall(usd) => Granted(rows, usd)
    case DebitCall(requested, fxRate, quote) => DebitCapped(rows, requested, fxRate, quote).rows
    case ReverseCall(usd, hasReason) => Reversed(rows, usd, hasReason).rows
    case AdjustCall(usd, hasReason) => Adjusted(rows, usd, hasReason).rows
  }

  function Run(rows: seq<ScRow>, calls: seq<ScCall>): seq<ScRow>
    decreases |calls|
  {
    if calls == [] then rows else Run(Step(rows, calls[0]), calls[1..])
  }

  /** Everything ever credited: grants, reversals and positive adjustments. */
  function Credits(rows: seq<ScRow>): real {
    if rows == [] then 0.0
    else
      var r := rows[|rows| - 1];
      Credits(rows[..|rows| - 1])
      + (if r.kind == Grant || r.kind == Reversal || r.kind == Adjustment then Max0(r.amountUsd) else 0.0)
  }

  /** Everything ever debited. */
  function Debits(rows: seq<ScRow>): real {
    if rows == [] then 0.0
    else Debits(rows[..|rows| - 1]) + if rows[|rows| - 1].kind == Debit then rows[|rows| - 1].amountUsd else 0.0
  }

  /** The rows this service writes: positive magnitudes except for adjustments, and no expiries. */
  predicate WellSigned(rows: seq<ScRow>) {
    forall i :: 0 <= i < |rows| ==> rows[i].kind != Expiry && (rows[i].kind != Adjustment ==> rows[i].amountUsd >= 0.0)
  }

  /** Credits cover debits, and the balance falls short of their difference only by negative adjustments. */
  predicate NotOverspent(rows: seq<ScRow>) {
    WellSigned(rows) && Debits(rows) <= Credits(rows) && Balance(rows) <= Credits(rows) - Debits(rows)
  }

  lemma AppendRow(rows: seq<ScRow>, r: ScRow)
    ensures Balance(rows + [r]) == Balance(rows) + SignedAmount(r.kind, r.amountUsd)
    ensures Credits(rows + [r]) == Credits(rows)
          + (if r.kind == Grant || r.kind == Reversal || r.kind == Adjustment then Max0(r.amountUsd) else 0.0)
    ensures Debits(rows + [r]) == Debits(rows) + (if r.kind == Debit then r.amountUsd else 0.0)
  {
    assert (rows + [r])[..|rows|] == rows;
  }

  /** An accepted adjustment that takes away more than is there. */
  predicate Overdraws(rows: seq<ScRow>, c: ScCall) {
    c.AdjustCall? && c.hasReason && c.usd < -Balance(rows)
  }

  /** A row this ledger may gain: a debit is covered by the balance it meets. */
  predicate CoveredRow(rows: seq<ScRow>, r: ScRow) {
    match r.kind
    case Debit => 0.0 < r.amountUsd <= Balance(rows)
    case Expiry => false
    case Adjustment => true
    case _ => r.amountUsd >= 0.0
  }

  lemma StepAppendsCovered(rows: seq<ScRow>, c: ScCall)
    ensures Step(rows, c) == rows
         || (exists r :: CoveredRow(rows, r) && Step(rows, c) == rows + [r]
                         && (!Overdraws(rows, c) && r.kind == Adjustment ==> r.amountUsd >= -Balance(rows))
                         && (Overdraws(rows, c) ==> r.kind == Adjustment && r.amountUsd < -Balance(rows)))
    ensures Overdraws(rows, c) && Balance(rows) >= 0.0 ==> Step(rows, c) != rows
  {
    hide ToNaira, Balance;
    match c
    case GrantCall(usd) => assert CoveredRow(rows, ScRow(Grant, Abs(usd), None, None));
    case ReverseCall(usd, hasReason) => assert CoveredRow(rows, ScRow(Reversal, Abs(usd), None, None));
    case AdjustCall(usd, hasReason) => assert CoveredRow(rows, ScRow(Adjustment, usd, None, None));
    case DebitCall(requested, fxRate, quote) =>
      var d := DebitCapped(rows, requested, fxRate, quote);
      if d.rows != rows {
        assert CoveredRow(rows, ScRow(Debit, d.appliedUsd, Some(d.appliedNgn), quote));
      }
  }

  lemma StepKeepsCover(rows: seq<ScRow>, c: ScCall)
    requires NotOverspent(rows)
    ensures NotOverspent(Step(rows, c))
  {
    hide Step;
    StepAppendsCovered(rows, c);
    if Step(rows, c) != rows {
      var r :| CoveredRow(rows, r) && Step(rows, c) == rows + [r];
      AppendRow(rows, r);
    }
  }

  /** Over any interleaving of calls, debits never exceed what was credited. */
  lemma {:induction false} NeverOverspent(rows: seq<ScRow>, calls: seq<ScCall>)
    requires NotOverspent(rows)
    ensures NotOverspent(Run(rows, calls))
    decreases |calls|
  {
    if calls != [] {
      StepKeepsCover(rows, calls[0]);
      NeverOverspent(Step(rows, calls[0]), calls[1..]);
    }
  }

  lemma LedgerNeverOverspent(calls: seq<ScCall>)
    ensures var rows := Run([], calls);
            Debits(rows) <= Credits(rows) && Balance(rows) <= Credits(rows) - Debits(rows)
  {
    NeverOverspent([], calls);
  }

  /** A debit applies exactly the smaller of request and balance, or nothing; it never takes a
      non-negative balance below zero and never touches a negative one. */
  lemma DebitIsCapped(rows: seq<ScRow>, requested: real, fxRate: real, quote: Option<QuoteId>)
    ensures var d := DebitCapped(rows, requested, fxRate, quote);
            && Balance(d.rows) == Balance(rows) - d.appliedUsd
            && d.appliedUsd == (if requested <= 0.0 || Balance(rows) <= 0.0 then 0.0 else Min(requested, Balance(rows)))
            && (Balance(rows) >= 0.0 ==> Balance(d.rows) >= 0.0)
            && (d.appliedUsd == 0.0 <==> d.rows == rows)
  {
    var d := DebitCapped(rows, requested, fxRate, quote);
    if d.rows != rows {
      AppendRow(rows, d.rows[|rows|]);
    }
  }

  /** What each call does to the balance: a grant and a justified reversal add their magnitude, a debit takes the
      smaller of request and balance, and a justified adjustment adds its signed amount. */
  lemma BalanceAfter(rows: seq<ScRow>, c: ScCall)
    ensures Balance(Step(rows, c)) - Balance(rows) ==
              match c
              case GrantCall(usd) => if usd < 0.0 then -usd else usd
              case DebitCall(requested, _, _) =>
                if requested <= 0.0 || Balance(rows) <= 0.0 then 0.0
                else if requested < Balance(rows) then -requested else -Balance(rows)
              case ReverseCall(usd, hasReason) => if !hasReason then 0.0 else if usd < 0.0 then -usd else usd
              case AdjustCall(usd, hasReason) => if hasReason then usd else 0.0
  {
    match c
    case GrantCall(usd) => AppendRow(rows, ScRow(Grant, Abs(usd), None, None));
    case DebitCall(requested, fxRate, quote) => DebitIsCapped(rows, requested, fxRate, quote);
    case ReverseCall(usd, hasReason) => AppendRow(rows, ScRow(Reversal, Abs(usd), None, None));
    case AdjustCall(usd, hasReason) => AppendRow(rows, ScRow(Adjustment, usd, None, None));
  }

  /** What one row is worth in the balance: grants and reversals never lower it, debits and expiries never raise it. */
  lemma RowWorth(rows: seq<ScRow>, r: ScRow)
    ensures var worth := Balance(rows + [r]) - Balance(rows);
            && (r.kind == Adjustment ==> worth == r.amountUsd)
            && (r.kind != Adjustment ==> worth == r.amountUsd || worth == -r.amountUsd)
            && (r.kind == Grant || r.kind == Reversal ==> worth >= 0.0)
            && (r.kind == Debit || r.kind == Expiry ==> worth <= 0.0)
  {
    AppendRow(rows, r);
    hide Balance;
  }

  /** A refused correction writes nothing: without a reason, or an adjustment of nothing. */
  lemma CorrectionRefused(rows: seq<ScRow>, usd: real, hasReason: bool)
    ensures Reversed(rows, usd, hasReason).error == if hasReason then None else Some(ReasonRequired)
    ensures Adjusted(rows, usd, hasReason).error
         == if !hasReason then Some(ReasonRequired) else if usd == 0.0 then Some(ZeroAdjustment) else None
    ensures Reversed(rows, usd, hasReason).error.Some? <==> Reversed(rows, usd, hasReason).rows == rows
    ensures Adjusted(rows, usd, hasReason).error.Some? <==> Adjusted(rows, usd, hasReason).rows == rows
  {
    assert |rows + [ScRow(Reversal, Abs(usd), None, None)]| == |rows| + 1;
    assert |rows + [ScRow(Adjustment, usd, None, None)]| == |rows| + 1;
  }

  /** Rows are never edited or removed. */
  lemma {:induction false} RowsAreAppendOnly(rows: seq<ScRow>, calls: seq<ScCall>)
    ensures rows <= Run(rows, calls)
    decreases |calls|
  {
    if calls != [] {
      RowsAreAppendOnly(Step(rows, calls[0]), calls[1..]);
    }
  }

  // ---- when the balance can go negative ----

  /** One call keeps a non-negative balance non-negative exactly when it is not an overdrawing adjustment. */
  lemma StepStaysNonNegative(rows: seq<ScRow>, c: ScCall)
    requires Balance(rows) >= 0.0
    ensures Balance(Step(rows, c)) >= 0.0 <==> !Overdraws(rows, c)
  {
    hide Step, Overdraws;
    StepAppendsCovered(rows, c);
    if Step(rows, c) != rows {
      var r :| CoveredRow(rows, r) && Step(rows, c) == rows + [r]
               && (!Overdraws(rows, c) && r.kind == Adjustment ==> r.amountUsd >= -Balance(rows))
               && (Overdraws(rows, c) ==> r.kind == Adjustment && r.amountUsd < -Balance(rows));
      AppendRow(rows, r);
    }
  }

  /** The balance is non-negative now and after every call of a run. */
  predicate NeverNegative(rows: seq<ScRow>, calls: seq<ScCall>)
    decreases |calls|
  {
    Balance(rows) >= 0.0 && (calls == [] || NeverNegative(Step(rows, calls[0]), calls[1..]))
  }

  /** No call of a run overdraws the balance it meets. */
  predicate NoOverdraft(rows: seq<ScRow>, calls: seq<ScCall>)
    decreases |calls|
  {
    calls == [] || (!Overdraws(rows, calls[0]) && NoOverdraft(Step(rows, calls[0]), calls[1..]))
  }

  lemma {:induction false} NonNegativeRuns(rows: seq<ScRow>, calls: seq<ScCall>)
    requires Balance(rows) >= 0.0
    ensures NeverNegative(rows, calls) <==> NoOverdraft(rows, calls)
    decreases |calls|
  {
    if calls != [] {
      StepStaysNonNegative(rows, calls[0]);
      if !Overdraws(rows, calls[0]) {
        NonNegativeRuns(Step(rows, calls[0]), calls[1..]);
      }
    }
  }

  /** The balance can be driven negative: a grant of 50 followed by an adjustment of -60. */
  lemma AdjustmentCanOverdraw()
    ensures Balance(Run([], [GrantCall(50.0), AdjustCall(-60.0, true)])) == -10.0
  {
    var granted := ScRow(Grant, 50.0, None, None);
    var adjusted := ScRow(Adjustment, -60.0, None, None);
    var calls := [GrantCall(50.0), AdjustCall(-60.0, true)];
    assert calls[1..] == [AdjustCall(-60.0, true)] && calls[1..][1..] == [];
    var rows := [] + [granted];
    assert Step([], calls[0]) == rows && Step(rows, calls[1]) == rows + [adjusted];
    assert Run([], calls) == Run(rows, calls[1..]) == Run(rows + [adjusted], []) == rows + [adjusted];
    assert Balance([]) == 0.0 && SignedAmount(Grant, 50.0) == 50.0 && SignedAmount(Adjustment, -60.0) == -60.0;
    hide *;
    AppendRow([], granted);
    AppendRow(rows, adjusted);
  }
}
