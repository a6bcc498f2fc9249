/** The guards `Transaction::save` runs before writing anything, and the
    status changes it makes on the way. */
module Saving {
  import opened Wrappers
  import opened Books
  import opened Lines
  import opened Types
  import opened Status
  import opened Checks

  datatype SaveError =
    | Locked
    | YearClosed
    | Invalid(reason: CheckError)
    | UnknownAccount
    | RevenueAccountInExpense(line: nat)
    | ExpenseAccountInRevenue(line: nat)

  /** `$line->account_code`: the code of the line's account, null when unknown. */
  function CodeOf(l: Line, books: Books): Option<string>
  {
    if l.idAccount.Some? && l.idAccount.value in books.accounts
    then Some(books.accounts[l.idAccount.value].code) else None
  }

  /** A line whose account is known and fits the transaction type: no
      revenue account in an expense, no expense account in a revenue. */
  ghost predicate AccountFits(l: Line, kind: Option<int>, books: Books)
  {
    && !EmptyText(CodeOf(l, books))
    && !(TypeIs(kind, EXPENSE) && PositionOf(l, books) == Some(Position.Revenue))
    && !(TypeIs(kind, REVENUE) && PositionOf(l, books) == Some(Position.Expense))
  }

  /** The account guard for line number `k` (lines 496-506). */
  function GuardLine(l: Line, k: nat, kind: Option<int>, books: Books): (r: Outcome<SaveError>)
    ensures r.Pass? <==> AccountFits(l, kind, books)
    ensures r.Fail? && !r.error.UnknownAccount? ==> (r.error.RevenueAccountInExpense? || r.error.ExpenseAccountInRevenue?) && r.error.line == k
  {
    if EmptyText(CodeOf(l, books)) then Fail(UnknownAccount)
    else if TypeIs(kind, EXPENSE) && PositionOf(l, books) == Some(Position.Revenue) then Fail(RevenueAccountInExpense(k))
    else if TypeIs(kind, REVENUE) && PositionOf(l, books) == Some(Position.Expense) then Fail(ExpenseAccountInRevenue(k))
    else Pass
  }

  /** The guard loop from index `i` on. */
  function GuardLinesFrom(lines: seq<Line>, i: nat, kind: Option<int>, books: Books): Outcome<SaveError>
    requires i <= |lines|
    decreases |lines| - i
  {
    if i == |lines| then Pass
    else
      match GuardLine(lines[i], i + 1, kind, books)
      case Fail(e) => Fail(e)
      case Pass => GuardLinesFrom(lines, i + 1, kind, books)
  }

  lemma {:induction false} GuardLinesFromMeaning(lines: seq<Line>, i: nat, kind: Option<int>, books: Books)
    requires i <= |lines|
    ensures GuardLinesFrom(lines, i, kind, books).Pass? <==>
              forall j | i <= j < |lines| :: AccountFits(lines[j], kind, books)
    decreases |lines| - i
  {
    if i < |lines| {
      GuardLinesFromMeaning(lines, i + 1, kind, books);
    }
  }

  /** `$this->validated && !(_modified['validated'] === 0)`: validated, and
      not switched on during this edit. */
  predicate LockedAgainstEdit(validated: bool, validatedWasZero: bool) { validated && !validatedWasZero }

  /** Everything save checks, in its order. */
  function SaveOutcome(h: Header, validated: bool, validatedWasZero: bool, lines: seq<Line>, books: Books): Outcome<SaveError>
  {
    if LockedAgainstEdit(validated, validatedWasZero) then Fail(Locked)
    else if h.idYear.Some? && books.YearClosed(h.idYear.value) then Fail(YearClosed)
    else
      match CheckTransaction(h, lines, books)
      case Fail(e) => Fail(Invalid(e))
      case Pass => GuardLinesFrom(lines, 0, h.kind, books)
  }

  /** save gets past its guards exactly when the transaction is not locked,
      its year is not closed, it passes selfCheck and every line's account is
      known and fits the type. */
  lemma SaveOutcomeMeaning(h: Header, validated: bool, validatedWasZero: bool, lines: seq<Line>, books: Books)
    ensures SaveOutcome(h, validated, validatedWasZero, lines, books).Pass? <==>
              && !LockedAgainstEdit(validated, validatedWasZero)
              && !(h.idYear.Some? && books.YearClosed(h.idYear.value))
              && Valid(h, lines, books)
              && forall j | 0 <= j < |lines| :: AccountFits(lines[j], h.kind, books)
  {
    CheckTransactionMeaning(h, lines, books);
    GuardLinesFromMeaning(lines, 0, h.kind, books);
  }

  /** An expense carrying a line on a revenue-position account (or a revenue
      carrying one on an expense-position account) is never saved. */
  lemma MismatchedPositionRejected(h: Header, validated: bool, validatedWasZero: bool, lines: seq<Line>, books: Books, j: int)
    requires 0 <= j < |lines|
    requires (TypeIs(h.kind, EXPENSE) && PositionOf(lines[j], books) == Some(Position.Revenue))
             || (TypeIs(h.kind, REVENUE) && PositionOf(lines[j], books) == Some(Position.Expense))
    ensures SaveOutcome(h, validated, validatedWasZero, lines, books).Fail?
  {
    SaveOutcomeMeaning(h, validated, validatedWasZero, lines, books);
  }

  /** A DEBT or CREDIT saved for the first time is waiting for payment. */
  predicate GainsWaiting(kind: Option<int>, saved: bool)
  {
    (TypeIs(kind, DEBT) || TypeIs(kind, CREDIT)) && !saved
  }

  /** A stored transaction that gets past the guards is no longer in error. */
  predicate ClearsError(saved: bool, passed: bool) { passed && saved }

  /** The status after save: a new DEBT or CREDIT gains WAITING (before any
      guard runs, so even when save fails); a stored transaction that gets
      past the guards loses ERROR. */
  function StatusOnSave(s: Bits, kind: Option<int>, saved: bool, passed: bool): (r: Bits)
    ensures GainsWaiting(kind, saved) ==> HasFlag(r, WAITING)
    ensures ClearsError(saved, passed) ==> !HasFlag(r, ERROR)
    ensures r & (PAID | DEPOSIT) == s & (PAID | DEPOSIT)
    ensures !GainsWaiting(kind, saved) && !ClearsError(saved, passed) ==> r == s
  {
    var waiting := if GainsWaiting(kind, saved) then SetBits(s, WAITING) else s;
    if ClearsError(saved, passed) && HasFlag(waiting, ERROR) then ClearBits(waiting, ERROR) else waiting
  }

  /** Save changes no bit but WAITING and ERROR, WAITING only for a new DEBT
      or CREDIT and ERROR only on a stored transaction that passes. */
  lemma StatusOnSaveKeepsOtherBits(s: Bits, kind: Option<int>, saved: bool, passed: bool)
    ensures var r := StatusOnSave(s, kind, saved, passed);
            && r & !(WAITING | ERROR) == s & !(WAITING | ERROR)
            && (!GainsWaiting(kind, saved) ==> r & WAITING == s & WAITING)
            && (!ClearsError(saved, passed) ==> r & ERROR == s & ERROR)
  {
    // The two cases exclude each other: one needs a new transaction, the
    // other a stored one.
    if GainsWaiting(kind, saved) {
      WaitingStep(s);
    } else if ClearsError(saved, passed) && HasFlag(s, ERROR) {
      ErrorStep(s);
    }
  }

  /** Setting WAITING leaves ERROR and every other bit alone. */
  lemma WaitingStep(s: Bits)
    ensures (s | WAITING) & !(WAITING | ERROR) == s & !(WAITING | ERROR)
    ensures (s | WAITING) & ERROR == s & ERROR
    ensures (s | WAITING) & (PAID | DEPOSIT) == s & (PAID | DEPOSIT)
  {
  }

  /** Clearing ERROR leaves WAITING and every other bit alone. */
  lemma ErrorStep(s: Bits)
    ensures (s & !ERROR) & !(WAITING | ERROR) == s & !(WAITING | ERROR)
    ensures (s & !ERROR) & WAITING == s & WAITING
    ensures (s & !ERROR) & (PAID | DEPOSIT) == s & (PAID | DEPOSIT)
  {
  }

  /** The guards of delete: a validated transaction, or one in a closed
      year, cannot be deleted. Unlike save, delete makes no exception for a
      transaction whose validation was switched on during this edit. */
  function DeleteOutcome(validated: bool, idYear: Option<int>, books: Books): (r: Outcome<SaveError>)
    ensures r.Pass? <==> !validated && !(idYear.Some? && books.YearClosed(idYear.value))
    ensures r.Fail? ==> r.error == Locked || r.error == YearClosed
  {
    if validated then Fail(Locked)
    else if idYear.Some? && books.YearClosed(idYear.value) then Fail(YearClosed)
    else Pass
  }

  /** A validated transaction is frozen: it can be neither deleted nor
      saved again, and neither can any transaction of a closed year. */
  lemma ValidatedIsFrozen(h: Header, validated: bool, validatedWasZero: bool, lines: seq<Line>, books: Books)
    requires (validated && !validatedWasZero) || (h.idYear.Some? && books.YearClosed(h.idYear.value))
    ensures SaveOutcome(h, validated, validatedWasZero, lines, books).Fail?
    ensures DeleteOutcome(validated, h.idYear, books).Fail?
  {
  }
}
