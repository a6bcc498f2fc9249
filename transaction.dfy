/** The transaction entity (`acc_transactions`): its scalar fields, its
    ordered list of lines and the list of lines removed since it was loaded,
    and the operations that read and change them. */
module Transactions {
  import opened Wrappers
  import opened Books
  import opened Lines
  import opened Types
  import opened Slots
  import opened Status
  import opened Checks
  import opened Saving
  import opened Forms

  /** The label importFromBalanceForm gives the opening entry. */
  const OPENING_TITLE: string := "Balance d'ouverture"

  /** What payOffFrom returns to prefill the pay-off form. */
  datatype PayoffSummary = PayoffSummary(id: Option<int>, amount: int, idProject: Option<int>, kind: Option<int>)

  /** The label of a pay-off: the related label behind a prefix naming a
      debt or, for any other type, a credit. */
  function PayoffTitle(kind: Option<int>, title: string): (r: string)
    ensures |r| > |title| && r[|r| - |title|..] == title
    ensures r[..|r| - |title|] == (if TypeIs(kind, DEBT) then "Règlement de dette : " else "Règlement de créance : ")
  {
    (if TypeIs(kind, DEBT) then "Règlement de dette : " else "Règlement de créance : ") + title
  }

  /** The pay-off label keeps both the related label and whether a debt or
      a credit was settled: two pay-off labels are equal only when both are. */
  lemma PayoffTitleInjective(k1: Option<int>, t1: string, k2: Option<int>, t2: string)
    requires PayoffTitle(k1, t1) == PayoffTitle(k2, t2)
    ensures t1 == t2
    ensures TypeIs(k1, DEBT) <==> TypeIs(k2, DEBT)
  {
    PayoffTitleKindChar(k1, t1);
    PayoffTitleKindChar(k2, t2);
    var r := PayoffTitle(k1, t1);
    assert t1 == r[|r| - |t1|..];
  }

  /** "dette" and "créance" differ at the fourteenth character of the label. */
  lemma PayoffTitleKindChar(kind: Option<int>, title: string)
    ensures PayoffTitle(kind, title)[13] == (if TypeIs(kind, DEBT) then 'd' else 'c')
  {
  }

  class Transaction {
    /** `None` until the transaction is stored: `exists()`. */
    var id: Option<int>
    var kind: Option<int>
    var status: Bits
    var title: string
    var notes: Option<string>
    var reference: Option<string>
    var date: Option<int>
    var validated: bool
    /** `_modified['validated'] === 0`: `validated` was off before this edit. */
    var validatedWasZero: bool
    var idYear: Option<int>
    var idCreator: Option<int>
    var idRelated: Option<int>
    /** `_lines`, in order. */
    var lines: seq<Line>
    /** `_old_lines`: the lines to delete when the transaction is saved. */
    var oldLines: seq<Line>
    /** `_related`: the debt or credit a pay-off settles. */
    var related: Transaction?
    /** `_default_selector[type][direction]`: preset slot accounts. */
    var defaultSelector: map<(int, Direction), int>

    constructor ()
      ensures id.None? && kind.None? && status == 0 && title == ""
      ensures notes.None? && reference.None? && date.None? && !validated && !validatedWasZero
      ensures idYear.None? && idCreator.None? && idRelated.None?
      ensures lines == [] && oldLines == [] && related == null && defaultSelector == map[]
    {
      id := None;
      kind := None;
      status := 0;
      title := "";
      notes := None;
      reference := None;
      date := None;
      validated := false;
      validatedWasZero := false;
      idYear := None;
      idCreator := None;
      idRelated := None;
      lines := [];
      oldLines := [];
      related := null;
      defaultSelector := map[];
    }

    /** The scalar fields the checks read. */
    function Fields(): Header
      reads this
    {
      Header(id, kind, title, notes, reference, date, idYear, idCreator, idRelated)
    }

    predicate Exists()
      reads this`id
    {
      id.Some?
    }

    /** The part of the state an import changes. */
    function Snapshot(): Draft
      reads this
    {
      Draft(kind, lines, oldLines)
    }

    /** What a pay-off reads of the related transaction. */
    function RelatedOf(): Option<RelatedEntry>
      reads this, related
    {
      if related == null then None else Some(RelatedEntry(related.kind, related.lines))
    }

    // ---- the line list ----

    method AddLine(l: Line)
      modifies this`lines
      ensures lines == old(lines) + [l]
    {
      lines := lines + [l];
    }

    /** Drop every line whose id is the removed line's id, and record the
        removed line once per dropped line. */
    method RemoveLine(remove: Line)
      modifies this`lines, this`oldLines
      ensures lines == WithoutId(old(lines), remove.id)
      ensures oldLines == old(oldLines) + Repeat(remove, CountId(old(lines), remove.id))
    {
      var source := lines;
      var kept: seq<Line> := [];
      var i := 0;
      while i < |source|
        invariant 0 <= i <= |source|
        invariant kept == WithoutId(source[..i], remove.id)
        invariant oldLines == old(oldLines) + Repeat(remove, CountId(source[..i], remove.id))
      {
        WithoutIdStep(source, i, remove.id);
        if source[i].id == remove.id {
          assert Repeat(remove, CountId(source[..i + 1], remove.id))
              == Repeat(remove, CountId(source[..i], remove.id)) + [remove];
          oldLines := oldLines + [remove];
        } else {
          kept := kept + [source[i]];
        }
        i := i + 1;
      }
      assert source[..i] == source;
      lines := kept;
    }

    /** Every current line becomes a removed line; earlier removed lines
        are forgotten. */
    method ResetLines()
      modifies this`lines, this`oldLines
      ensures oldLines == old(lines) && lines == []
    {
      oldLines := lines;
      lines := [];
    }

    /** The first line with this id. */
    method GetLine(lineId: int) returns (r: Option<Line>)
      ensures r.Some? ==> r.value in lines && r.value.id == Some(lineId)
      ensures r.Some? ==> exists k | 0 <= k < |lines| :: r.value == lines[k] && forall j | 0 <= j < k :: lines[j].id != Some(lineId)
      ensures r.None? <==> forall i | 0 <= i < |lines| :: lines[i].id != Some(lineId)
    {
      var i := 0;
      while i < |lines|
        invariant 0 <= i <= |lines|
        invariant forall j | 0 <= j < i :: lines[j].id != Some(lineId)
      {
        if lines[i].id == Some(lineId) {
          return Some(lines[i]);
        }
        i := i + 1;
      }
      return None;
    }

    /** getCreditLine: none for an ADVANCED transaction, else the first credit line. */
    method CreditLine() returns (r: Option<Line>)
      ensures r == (if TypeIs(kind, ADVANCED) then None else FirstCredit(lines))
    {
      if TypeIs(kind, ADVANCED) {
        return None;
      }
      var i := 0;
      while i < |lines|
        invariant 0 <= i <= |lines|
        invariant FirstCredit(lines) == FirstCredit(lines[i..])
      {
        assert lines[i..][1..] == lines[i + 1..];
        if IsCredit(lines[i]) {
          return Some(lines[i]);
        }
        i := i + 1;
      }
      return None;
    }

    /** getDebitLine: none for an ADVANCED transaction, else the first debit line. */
    method DebitLine() returns (r: Option<Line>)
      ensures r == (if TypeIs(kind, ADVANCED) then None else FirstDebit(lines))
    {
      if TypeIs(kind, ADVANCED) {
        return None;
      }
      var i := 0;
      while i < |lines|
        invariant 0 <= i <= |lines|
        invariant FirstDebit(lines) == FirstDebit(lines[i..])
      {
        assert lines[i..][1..] == lines[i + 1..];
        if IsDebit(lines[i]) {
          return Some(lines[i]);
        }
        i := i + 1;
      }
      return None;
    }

    // ---- sums ----

    method LinesCreditSum() returns (s: int)
      ensures s == CreditTotal(lines)
    {
      s := 0;
      var i := 0;
      while i < |lines|
        invariant 0 <= i <= |lines|
        invariant s == CreditTotal(lines[..i])
      {
        assert lines[..i + 1][..i] == lines[..i];
        s := s + lines[i].credit;
        i := i + 1;
      }
      assert lines[..i] == lines;
    }

    method LinesDebitSum() returns (s: int)
      ensures s == DebitTotal(lines)
    {
      s := 0;
      var i := 0;
      while i < |lines|
        invariant 0 <= i <= |lines|
        invariant s == DebitTotal(lines[..i])
      {
        assert lines[..i + 1][..i] == lines[..i];
        s := s + lines[i].debit;
        i := i + 1;
      }
      assert lines[..i] == lines;
    }

    /** The amount of the entry: the credit total, which is also the debit
        total of a balanced entry. */
    method Sum() returns (s: int)
      ensures s == CreditTotal(lines)
      ensures Balanced(lines) ==> s == DebitTotal(lines)
    {
      s := LinesCreditSum();
    }

    /** getProjectId: the project of the first line that has one. */
    method ProjectId() returns (r: Option<int>)
      ensures r == FirstProject(lines)
    {
      if |lines| == 0 {
        return None;
      }
      r := None;
      var i := 0;
      while i < |lines|
        invariant 0 <= i <= |lines|
        invariant FirstProject(lines) == FirstProject(lines[i..])
      {
        assert lines[i..][1..] == lines[i + 1..];
        if HasProject(lines[i]) {
          r := lines[i].idProject;
          break;
        }
        i := i + 1;
      }
    }

    // ---- status ----

    method AddStatus(p: Bits)
      modifies this`status
      ensures status == SetBits(old(status), p)
    {
      status := status | p;
    }

    method RemoveStatus(p: Bits)
      modifies this`status
      ensures status == ClearBits(old(status), p)
    {
      status := status & !p;
    }

    method MarkPaid()
      modifies this`status
      ensures status == Paid(old(status))
    {
      RemoveStatus(WAITING);
      AddStatus(PAID);
    }

    // ---- type inference ----

    method FindTypeFromAccounts(books: Books) returns (t: int)
      ensures t == InferredType(lines, books)
    {
      if |lines| != 2 {
        return ADVANCED;
      }
      var types: seq<int> := [];
      var i := 0;
      while i < |lines|
        invariant 0 <= i <= |lines|
        invariant types == Votes(lines[..i], books)
      {
        assert lines[..i + 1][..i] == lines[..i];
        var position := PositionOf(lines[i], books);
        if position == Some(Position.Revenue) && IsCredit(lines[i]) {
          types := types + [REVENUE];
        } else if position == Some(Position.Expense) && IsDebit(lines[i]) {
          types := types + [EXPENSE];
        }
        i := i + 1;
      }
      assert lines[..i] == lines;
      if |types| != 1 {
        return ADVANCED;
      }
      return types[0];
    }

    // ---- validation and save ----

    /** selfCheck: the first rule the transaction breaks, or Pass. */
    method SelfCheck(books: Books) returns (r: Outcome<CheckError>)
      ensures r == CheckTransaction(Fields(), lines, books)
    {
      var h := Fields();
      r := CheckHeader(h, books);
      if r.Fail? {
        return;
      }
      r := CheckCount(kind, |lines|);
      if r.Fail? {
        return;
      }
      var chart := books.years[idYear.value].chart;
      var total := 0;
      var k := 0;
      while k < |lines|
        invariant 0 <= k <= |lines|
        invariant CheckLinesFrom(lines, 0, chart, books) == CheckLinesFrom(lines, k, chart, books)
        invariant total == CreditTotal(lines[..k]) - DebitTotal(lines[..k])
      {
        r := CheckLine(lines[k], k + 1, chart, books);
        if r.Fail? {
          return;
        }
        assert lines[..k + 1][..k] == lines[..k];
        total := total + lines[k].credit;
        total := total - lines[k].debit;
        k := k + 1;
      }
      assert lines[..k] == lines;
      if total != 0 {
        return Fail(Unbalanced(total));
      }
      r := CheckRelated(h, books);
    }

    /** The guards of save, up to the database writes, and the status
        changes it makes on the way. */
    method Save(books: Books) returns (r: Outcome<SaveError>)
      modifies this`status
      ensures r == SaveOutcome(Fields(), validated, validatedWasZero, lines, books)
      ensures status == StatusOnSave(old(status), kind, Exists(), r.Pass?)
    {
      if GainsWaiting(kind, Exists()) {
        AddStatus(WAITING);
      }
      if LockedAgainstEdit(validated, validatedWasZero) {
        return Fail(Locked);
      }
      if idYear.Some? && books.YearClosed(idYear.value) {
        return Fail(YearClosed);
      }
      var check := SelfCheck(books);
      if check.Fail? {
        return Fail(Invalid(check.error));
      }
      var k := 0;
      while k < |lines|
        invariant 0 <= k <= |lines|
        invariant GuardLinesFrom(lines, 0, kind, books) == GuardLinesFrom(lines, k, kind, books)
      {
        r := GuardLine(lines[k], k + 1, kind, books);
        if r.Fail? {
          return;
        }
        k := k + 1;
      }
      if Exists() && HasFlag(status, ERROR) {
        RemoveStatus(ERROR);
      }
      r := Pass;
    }

    /** The guards of delete, before the attachments and the row go. */
    method Delete(books: Books) returns (r: Outcome<SaveError>)
      ensures r == DeleteOutcome(validated, idYear, books)
      ensures r.Fail? ==> r.error == Locked || r.error == YearClosed
    {
      if validated {
        return Fail(Locked);
      }
      if idYear.Some? && books.YearClosed(idYear.value) {
        return Fail(YearClosed);
      }
      return Pass;
    }

    // ---- the simplified form ----

    /** The selector values getTypesDetails computes for the slots of type
        `key`: first the scan of the lines for a debit and a credit account. */
    method TypeSelectors(key: int, simple: map<(int, Direction), int>) returns (sels: seq<Option<int>>)
      ensures |sels| == |SlotsOf(key)|
      ensures forall i | 0 <= i < |sels| ::
                sels[i] == SelectorValue(key, SlotsOf(key)[i], kind, simple, CurrentAccounts(lines, map[]), defaultSelector)
    {
      var current: Current := map[];
      var done := false;
      var i := 0;
      while i < |lines| && !done
        invariant 0 <= i <= |lines|
        invariant done ==> CurrentAccounts(lines, map[]) == current
        invariant !done ==> CurrentAccounts(lines, map[]) == CurrentAccounts(lines[i..], current)
      {
        assert lines[i..][1..] == lines[i + 1..];
        if IsDebit(lines[i]) {
          current := current[Debit := lines[i].idAccount];
        } else if IsCredit(lines[i]) {
          current := current[Credit := lines[i].idAccount];
        }
        if Debit in current && Credit in current {
          done := true;
        }
        i := i + 1;
      }
      var slots := SlotsOf(key);
      var own := kind;
      var preset := defaultSelector;
      sels := seq(|slots|, j requires 0 <= j < |slots| =>
                    SelectorValue(key, slots[j], own, simple, current, preset));
    }

    method SetDefaultAccount(t: int, d: Direction, account: int)
      modifies this`defaultSelector
      ensures defaultSelector == old(defaultSelector)[(t, d) := account]
    {
      defaultSelector := defaultSelector[(t, d) := account];
    }

    // ---- imports ----

    /** The "add lines" step of importForm: the current lines become
        removed lines, then the form lines are resolved and added one by
        one until one fails. */
    method ReplaceLines(fls: seq<FormLine>, ctx: YearContext, books: Books) returns (r: Outcome<ImportError>)
      requires books.Valid()
      modifies this`lines, this`oldLines
      ensures oldLines == old(lines) && (lines, r) == ResolveAll(fls, ctx, books)
    {
      ResetLines();
      var i := 0;
      while i < |fls|
        invariant 0 <= i <= |fls|
        invariant oldLines == old(lines)
        invariant ResolveAll(fls[..i], ctx, books) == (lines, Pass)
      {
        ResolveAllStep(fls, i, ctx, books);
        match ResolveLine(fls[i], i + 1, ctx, books)
        case Err(e) =>
          ResolveAllStops(fls, i + 1, ctx, books);
          return Fail(e);
        case Ok(l) =>
          AddLine(l);
        i := i + 1;
      }
      assert fls[..i] == fls;
      r := Pass;
    }

    /** The lines importForm will add, chosen from the current type: the
        two-line expansion of a simplified form, with its checks, or the
        form's own lines. */
    method PlanLines(form: Form, setAll: bool) returns (p: Result<Option<seq<FormLine>>, ImportError>)
      ensures p == FormPlan(form, kind, CurrentAccounts(lines, map[]), defaultSelector, setAll)
    {
      if form.amount.Some? && kind.Some? && kind.value != ADVANCED {
        var t := kind.value;
        if form.amount.value == 0 {
          return Err(ImportError.NoAmount);
        }
        if !IsSimplified(t) {
          return Err(NotSimplified(t));
        }
        var sels := TypeSelectors(t, form.simple);
        var slots := SlotsOf(t);
        if !(form.debit.Some? && form.credit.Some?) {
          var j := 0;
          while j < 2
            invariant 0 <= j <= 2
            invariant forall i | 0 <= i < j :: sels[i].Some?
          {
            if sels[j].None? {
              return Err(NoSlotAccount(slots[j].caption));
            }
            j := j + 1;
          }
        }
        return Ok(Some(SimpleLines(t, form.amount.value, sels, form, setAll)));
      }
      return Ok(form.lines);
    }

    method ImportForm(form: Form, books: Books, setAll: bool) returns (r: Outcome<ImportError>)
      requires books.Valid()
      modifies this`kind, this`lines, this`oldLines
      ensures (Snapshot(), r) == FormImport(old(Snapshot()), form, idYear, defaultSelector, books, setAll)
    {
      if form.typeField.Some? {
        kind := Some(CastInt(form.typeField.value));
      }
      var plan := PlanLines(form, setAll);
      match plan
      case Err(e) =>
        r := Fail(e);
      case Ok(None) =>
        r := Pass;
      case Ok(Some(fls)) =>
        r := ReplaceLines(fls, YearFor(form.idYear, idYear), books);
    }

    method ImportFromNewForm(form: Form, books: Books, setAll: bool) returns (r: Outcome<ImportError>)
      requires books.Valid()
      modifies this`kind, this`lines, this`oldLines
      ensures (Snapshot(), r) == NewFormImport(old(Snapshot()), form, idYear, defaultSelector, books, setAll)
    {
      if !AdvancedRequested(form, kind) && form.amount.None? {
        return Fail(ImportError.NoAmount);
      }
      r := ImportForm(form, books, setAll);
    }

    method ImportFromAPI(form: Form, books: Books, setAll: bool) returns (r: Outcome<ImportError>)
      requires books.Valid()
      modifies this`kind, this`lines, this`oldLines
      ensures (Snapshot(), r) == ApiImport(old(Snapshot()), form, idYear, defaultSelector, books, setAll)
    {
      r := ImportFromNewForm(ApiForm(form), books, setAll);
    }

    method ImportFromDepositForm(form: Form, books: Books, setAll: bool) returns (r: Outcome<ImportError>)
      requires books.Valid()
      modifies this`kind, this`lines, this`oldLines
      ensures (Snapshot(), r) == DepositImport(old(Snapshot()), form, idYear, defaultSelector, books, setAll)
    {
      if form.amount.None? || form.amount.value == 0 {
        return Fail(ImportError.NoAmount);
      }
      kind := Some(ADVANCED);
      if form.accountTransfer.None? {
        return Fail(NoDepositAccount);
      }
      AddLine(DepositLine(form.accountTransfer.value, form.amount.value));
      r := ImportForm(form, books, setAll);
    }

    method ImportFromPayoffForm(form: Form, books: Books, setAll: bool) returns (r: Outcome<ImportError>)
      requires books.Valid()
      modifies this`kind, this`lines, this`oldLines
      ensures (Snapshot(), r) == PayoffImport(old(Snapshot()), old(RelatedOf()), form, idYear, defaultSelector, books, setAll)
    {
      if related == null {
        return Fail(NoRelated);
      }
      var f := form.(typeField := None, lines := None);
      if f.amount.None? || f.amount.value == 0 {
        return Fail(ImportError.NoAmount);
      }
      if f.account.None? {
        return Fail(NoSettlementAccount);
      }
      var relKind := related.kind;
      var relLines := related.lines;
      var i := 0;
      while i < |relLines| && SkippedForPayoff(relKind, relLines[i])
        invariant 0 <= i <= |relLines|
        invariant forall j | 0 <= j < i :: SkippedForPayoff(relKind, relLines[j])
      {
        i := i + 1;
      }
      var third := if i < |relLines| then relLines[i].idAccount else None;
      assert third == ThirdPartyAccount(relKind, relLines);
      if !NonEmptyId(third) {
        return Fail(NoThirdPartyAccount);
      }
      r := ImportFromNewForm(f.(lines := Some(PayoffEntry(relKind, third, f, setAll))), books, setAll);
    }

    method ImportFromBalanceForm(yearId: int, form: Form, books: Books, setAll: bool) returns (r: Outcome<ImportError>)
      requires books.Valid() && yearId in books.years
      modifies this`title, this`date, this`idYear, this`kind, this`lines, this`oldLines
      ensures title == OPENING_TITLE && date == Some(books.years[yearId].start) && idYear == Some(yearId)
      ensures (Snapshot(), r) == BalanceImport(old(Snapshot()), form, yearId, defaultSelector, books, setAll)
    {
      title := OPENING_TITLE;
      date := Some(books.years[yearId].start);
      idYear := Some(yearId);
      kind := Some(ADVANCED);
      r := ImportFromNewForm(form, books, setAll);
      if r.Fail? {
        return;
      }
      r := BalanceLines(yearId, books);
    }

    /** The balancing line importFromBalanceForm appends after the import. */
    method BalanceLines(yearId: int, books: Books) returns (r: Outcome<ImportError>)
      requires yearId in books.years
      modifies this`lines
      ensures (Snapshot(), r) == BalanceTail(old(Snapshot()), yearId, books)
    {
      var credit := LinesCreditSum();
      var debit := LinesDebitSum();
      var diff := credit - debit;
      if diff == 0 {
        return Pass;
      }
      var chart := books.years[yearId].chart;
      if chart !in books.opening {
        return Fail(NoOpeningAccount);
      }
      var account := books.opening[chart];
      var l := if diff > 0 then Line(None, Some(account), None, None, None, 0, diff)
               else Line(None, Some(account), None, None, None, -diff, 0);
      assert l == BalancingLine(lines, account).value;
      AddLine(l);
      r := Pass;
    }

    // ---- derived transactions ----

    /** Make this transaction the pay-off of `found` (the result of looking
        the related id up; null when there is none). */
    method PayOffFrom(found: Transaction?) returns (r: Option<PayoffSummary>)
      modifies this`related, this`idRelated, this`title, this`kind
      ensures related == found
      ensures found == null ==> r.None? && idRelated == old(idRelated) && title == old(title) && kind == old(kind)
      ensures found != null ==>
                && idRelated == found.id
                && title == PayoffTitle(old(found.kind), old(found.title))
                && kind == Some(ADVANCED)
                && r == Some(PayoffSummary(found.id, CreditTotal(found.lines), FirstProject(found.lines), found.kind))
    {
      related := found;
      if related == null {
        return None;
      }
      idRelated := related.id;
      title := PayoffTitle(related.kind, related.title);
      kind := Some(ADVANCED);
      var amount := related.Sum();
      var project := related.ProjectId();
      r := Some(PayoffSummary(related.id, amount, project, related.kind));
    }

    /** A new, unsaved copy of this transaction for the year `yearId`:
        lines re-mapped to that year's chart, the date kept only when it
        falls in the year, the status cleared. */
    method Duplicate(yearId: int, books: Books) returns (t: Transaction)
      requires books.Valid() && yearId in books.years
      ensures fresh(t)
      ensures t.kind == kind && t.title == title && t.notes == notes && t.reference == reference
      ensures t.status == 0 && t.id.None? && t.idYear.None? && !t.validated
      ensures t.lines == DuplicateLines(lines, books.years[yearId].chart, books) && t.oldLines == []
      ensures t.date == DuplicateDate(date, books.years[yearId])
      ensures t.idCreator.None? && t.idRelated.None? && t.related == null
    {
      t := new Transaction();
      t.kind := kind;
      t.status := status;
      t.title := title;
      t.notes := notes;
      t.reference := reference;
      var chart := books.years[yearId].chart;
      var i := 0;
      while i < |lines|
        invariant 0 <= i <= |lines|
        invariant t.kind == kind && t.title == title && t.notes == notes && t.reference == reference
        invariant t.id.None? && t.idYear.None? && !t.validated && t.oldLines == []
        invariant t.idCreator.None? && t.idRelated.None? && t.related == null
        invariant t.lines == DuplicateLines(lines[..i], chart, books)
      {
        DuplicateLinesStep(lines, i, chart, books);
        var rows := DuplicateRow(lines[i], chart, books);
        if |rows| == 1 {
          t.AddLine(rows[0]);
        }
        i := i + 1;
      }
      assert lines[..i] == lines;
      t.date := DuplicateDate(date, books.years[yearId]);
      t.status := 0;
    }
  }
}
