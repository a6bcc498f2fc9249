/** The line sets the import entry points build before handing them to the
    line loop of `importForm`: the two-line expansion of a simplified form,
    the pay-off entry, the opening-balance line and the lines of a duplicate. */
module Forms {
  import opened Wrappers
  import opened Books
  import opened Lines
  import opened Types
  import opened Slots
  import opened Checks

  /** One entry of `$source['lines']`, before its account is resolved. */
  datatype FormLine = FormLine(
    /** `account`: an account code */
    account: Option<string>,
    /** `id_account` */
    idAccount: Option<int>,
    /** `account_selector`: the id of the selected account */
    selector: Option<int>,
    credit: int,
    debit: int,
    title: Option<string>,
    reference: Option<string>,
    idProject: Option<int>)

  /** The input map of an import, amounts already in minor units. */
  datatype Form = Form(
    typeField: Option<TypeField>,
    amount: Option<int>,
    /** `$source['debit']`, `$source['credit']`: account codes of a simplified form */
    debit: Option<string>,
    credit: Option<string>,
    /** `$source['simple'][type][side]`: accounts chosen in the simplified form */
    simple: map<(int, Direction), int>,
    paymentReference: Option<string>,
    idProject: Option<int>,
    idYear: Option<int>,
    lines: Option<seq<FormLine>>,
    /** `$source['account']`: the settlement account of a pay-off */
    account: Option<int>,
    /** `$source['account_transfer']`: the bank account of a deposit */
    accountTransfer: Option<int>)

  datatype ImportError =
    | NoAmount
    | NoSlotAccount(caption: string)
    | NoLineAccount(line: nat)
    | NoYearGiven
    | UnknownCode(code: string, line: nat)
    | NotSimplified(kind: int)
    | NoDepositAccount
    | NoSettlementAccount
    | NoOpeningAccount
    /** LogicException: pay-off without a related transaction */
    | NoRelated
    /** LogicException: the related transaction has no third-party line */
    | NoThirdPartyAccount

  /** `[$direction => $amount]` as a (credit, debit) pair. */
  function Sides(d: Direction, amount: int): (int, int)
  {
    if d == Credit then (amount, 0) else (0, amount)
  }

  /** `$source[$direction] ?? null`. */
  function CodeFor(form: Form, d: Direction): Option<string>
  {
    if d == Credit then form.credit else form.debit
  }

  function SlotLine(slot: Slot, sel: Option<int>, form: Form, amount: int, project: Option<int>): FormLine
  {
    var (c, d) := Sides(slot.direction, amount);
    FormLine(CodeFor(form, slot.direction), None, sel, c, d, None, form.paymentReference, project)
  }

  /** The two-line expansion of a simplified form (lines 708-731): one line
      per slot, carrying the whole amount on the slot's side. The first line
      gets the form's project unless it is a transfer, the second only when
      projects are applied to all lines. */
  function SimpleLines(t: int, amount: int, sels: seq<Option<int>>, form: Form, setAll: bool): (r: seq<FormLine>)
    requires IsSimplified(t) && |sels| == 2
    ensures |r| == 2
    ensures (r[0].credit == amount && r[0].debit == 0 && r[1].debit == amount && r[1].credit == 0)
            || (r[0].debit == amount && r[0].credit == 0 && r[1].credit == amount && r[1].debit == 0)
    ensures r[0].selector == sels[0] && r[1].selector == sels[1]
  {
    var slots := SlotsOf(t);
    var p0 := if t != TRANSFER || setAll then form.idProject else None;
    var p1 := if setAll then p0 else None;
    [SlotLine(slots[0], sels[0], form, amount, p0), SlotLine(slots[1], sels[1], form, amount, p1)]
  }

  // ---- the line loop of importForm (lines 737-768) ----

  /** Whether a year is known (`!empty($this->id_year) || !empty($source['id_year'])`)
      and which one codes are looked up in (`$source['id_year'] ?? $this->id_year`). */
  datatype YearContext = YearContext(given: bool, year: Option<int>)

  function YearFor(formYear: Option<int>, ownYear: Option<int>): YearContext
  {
    YearContext(NonEmptyId(formYear) || NonEmptyId(ownYear), if formYear.Some? then formYear else ownYear)
  }

  function MakeLine(fl: FormLine, idAccount: Option<int>): Line
  {
    Line(None, idAccount, fl.idProject, fl.title, fl.reference, fl.credit, fl.debit)
  }

  /** Resolve the account of form line number `k`: the selector wins, then
      an account code looked up in the year's chart, then `id_account`. */
  function ResolveLine(fl: FormLine, k: nat, ctx: YearContext, books: Books): (r: Result<Line, ImportError>)
    requires books.Valid()
    ensures r.Ok? ==> r.value == MakeLine(fl, r.value.idAccount)
    ensures r.Ok? && fl.selector.None? && fl.account.Some? ==>
              ctx.year.Some? && ctx.year.value in books.years && r.value.idAccount.Some?
              && books.InChart(r.value.idAccount.value, books.years[ctx.year.value].chart)
              && books.accounts[r.value.idAccount.value].code == fl.account.value
    ensures r.Ok? && fl.selector.Some? ==> r.value.idAccount == fl.selector
    ensures r.Ok? && fl.selector.None? && fl.account.None? ==> r.value.idAccount == fl.idAccount
    ensures r.Err? ==> r.error.NoLineAccount? || r.error.NoYearGiven? || r.error.UnknownCode?
    ensures r == Err(NoLineAccount(k)) <==> EmptyText(fl.account) && !NonEmptyId(fl.idAccount) && !NonEmptyId(fl.selector)
    ensures NonEmptyId(fl.selector) ==> r == Ok(MakeLine(fl, fl.selector))
    ensures fl.selector.None? && fl.account.None? && NonEmptyId(fl.idAccount) ==> r == Ok(MakeLine(fl, fl.idAccount))
    ensures fl.selector.None? && fl.account.Some? && (!EmptyText(fl.account) || NonEmptyId(fl.idAccount)) ==>
              (!ctx.given ==> r == Err(NoYearGiven))
              && (ctx.given && (ctx.year.None? || books.ChartOf(ctx.year.value).None?) ==>
                    r == Err(UnknownCode(fl.account.value, k)))
              && (ctx.given && ctx.year.Some? && books.ChartOf(ctx.year.value).Some? ==>
                    var found := books.AccountByCode(books.ChartOf(ctx.year.value).value, fl.account.value);
                    r == if found.Some? && found.value != 0 then Ok(MakeLine(fl, found)) else Err(UnknownCode(fl.account.value, k)))
  {
    if EmptyText(fl.account) && !NonEmptyId(fl.idAccount) && !NonEmptyId(fl.selector) then Err(NoLineAccount(k))
    else if fl.selector.Some? then Ok(MakeLine(fl, fl.selector))
    else if fl.account.Some? then
      if !ctx.given then Err(NoYearGiven)
      else if ctx.year.None? || books.ChartOf(ctx.year.value).None? then Err(UnknownCode(fl.account.value, k))
      else
        match books.AccountByCode(books.ChartOf(ctx.year.value).value, fl.account.value)
        case None => Err(UnknownCode(fl.account.value, k))
        case Some(id) => if id == 0 then Err(UnknownCode(fl.account.value, k)) else Ok(MakeLine(fl, Some(id)))
    else Ok(MakeLine(fl, fl.idAccount))
  }

  /** The lines the loop has added, and how it ended: it stops at the first
      line it cannot resolve, keeping the lines added before it. */
  function ResolveAll(fls: seq<FormLine>, ctx: YearContext, books: Books): (r: (seq<Line>, Outcome<ImportError>))
    requires books.Valid()
    ensures |r.0| <= |fls| && (r.1.Pass? ==> |r.0| == |fls|)
    ensures forall i | 0 <= i < |r.0| ::
              r.0[i].credit == fls[i].credit && r.0[i].debit == fls[i].debit && r.0[i].id.None?
    ensures forall i | 0 <= i < |r.0| :: ResolveLine(fls[i], i + 1, ctx, books) == Ok(r.0[i])
    ensures r.1.Fail? && r.1.error.NoLineAccount? ==> r.1.error.line == |r.0| + 1
    ensures r.1.Fail? ==> |r.0| < |fls| && ResolveLine(fls[|r.0|], |r.0| + 1, ctx, books) == Err(r.1.error)
    ensures (forall i | 0 <= i < |fls| :: ResolveLine(fls[i], i + 1, ctx, books).Ok?) ==> r.1.Pass?
  {
    if fls == [] then ([], Pass)
    else
      var prev := ResolveAll(fls[..|fls| - 1], ctx, books);
      if prev.1.Fail? then prev
      else
        match ResolveLine(fls[|fls| - 1], |fls|, ctx, books)
        case Err(e) => (prev.0, Fail(e))
        case Ok(l) => (prev.0 + [l], Pass)
  }

  /** One step of importForm's loop over the prefix `fls[..i]`, once that
      prefix resolved without error. */
  lemma ResolveAllStep(fls: seq<FormLine>, i: int, ctx: YearContext, books: Books)
    requires books.Valid() && 0 <= i < |fls| && ResolveAll(fls[..i], ctx, books).1.Pass?
    ensures var prev := ResolveAll(fls[..i], ctx, books).0;
            ResolveAll(fls[..i + 1], ctx, books) ==
              match ResolveLine(fls[i], i + 1, ctx, books)
              case Err(e) => (prev, Fail(e))
              case Ok(l) => (prev + [l], Pass)
  {
    assert fls[..i + 1][..i] == fls[..i];
  }

  /** Once a line fails, the lines after it are not looked at. */
  lemma {:induction false} ResolveAllStops(fls: seq<FormLine>, k: nat, ctx: YearContext, books: Books)
    requires books.Valid() && k <= |fls| && ResolveAll(fls[..k], ctx, books).1.Fail?
    ensures ResolveAll(fls, ctx, books) == ResolveAll(fls[..k], ctx, books)
    decreases |fls|
  {
    if k == |fls| {
      assert fls[..k] == fls;
    } else {
      var init := fls[..|fls| - 1];
      assert init[..k] == fls[..k];
      ResolveAllStops(init, k, ctx, books);
    }
  }

  /** A simplified form that imports without error yields one credit and one
      debit line of the same amount: a balanced entry. */
  lemma SimpleImportBalanced(t: int, amount: int, sels: seq<Option<int>>, form: Form, setAll: bool,
                             ctx: YearContext, books: Books)
    requires IsSimplified(t) && |sels| == 2 && books.Valid()
    requires ResolveAll(SimpleLines(t, amount, sels, form, setAll), ctx, books).1.Pass?
    ensures var ls := ResolveAll(SimpleLines(t, amount, sels, form, setAll), ctx, books).0;
            |ls| == 2 && Balanced(ls) && CreditTotal(ls) == amount
  {
    var fls := SimpleLines(t, amount, sels, form, setAll);
    var ls := ResolveAll(fls, ctx, books).0;
    assert ls == [ls[0], ls[1]];
    TotalsOfPair(ls[0], ls[1]);
  }

  // ---- pay-off (lines 829-864) ----

  /** A line of the related transaction that the search skips: the debit
      lines of a DEBT, the credit lines of a CREDIT. */
  predicate SkippedForPayoff(relKind: Option<int>, l: Line)
  {
    (TypeIs(relKind, DEBT) && IsDebit(l)) || (TypeIs(relKind, CREDIT) && IsCredit(l))
  }

  /** The first line the search does not skip: the third-party line. */
  function ThirdPartyIndex(relKind: Option<int>, lines: seq<Line>): (r: Option<nat>)
    ensures r.Some? ==> r.value < |lines| && !SkippedForPayoff(relKind, lines[r.value])
                        && forall j | 0 <= j < r.value :: SkippedForPayoff(relKind, lines[j])
    ensures r.None? ==> forall j | 0 <= j < |lines| :: SkippedForPayoff(relKind, lines[j])
  {
    if lines == [] then None
    else if !SkippedForPayoff(relKind, lines[0]) then Some(0)
    else
      match ThirdPartyIndex(relKind, lines[1..])
      case None => None
      case Some(i) => Some(i + 1)
  }

  /** `$id_account` after the search. */
  function ThirdPartyAccount(relKind: Option<int>, lines: seq<Line>): Option<int>
  {
    match ThirdPartyIndex(relKind, lines)
    case None => None
    case Some(i) => lines[i].idAccount
  }

  /** The two pay-off lines: the third-party account on the side opposite
      to the one the related DEBT (credit) or CREDIT (debit) used, the
      settlement account on the other side, both for the whole amount. */
  function PayoffEntry(relKind: Option<int>, third: Option<int>, form: Form, setAll: bool): (r: seq<FormLine>)
    requires form.amount.Some?
    ensures |r| == 2 && r[0].idAccount == third && r[1].selector == form.account
    ensures r[0].credit == r[1].debit && r[0].debit == r[1].credit
  {
    var d1 := if TypeIs(relKind, CREDIT) then Credit else Debit;
    var (c1, b1) := Sides(d1, form.amount.value);
    var (c2, b2) := Sides(Opposite(d1), form.amount.value);
    [ FormLine(None, third, None, c1, b1, None, form.paymentReference, form.idProject),
      FormLine(None, None, form.account, c2, b2, None, form.paymentReference,
               if setAll then form.idProject else None) ]
  }

  /** The checks of importFromPayoffForm, in order, then the entry. */
  function PayoffLines(relKind: Option<int>, relLines: seq<Line>, form: Form, setAll: bool): (r: Result<seq<FormLine>, ImportError>)
    ensures r.Ok? ==> form.amount.Some? && form.amount.value != 0 && |r.value| == 2
    ensures r.Ok? ==>
              var a := form.amount.value;
              (r.value[0].credit == a && r.value[0].debit == 0 && r.value[1].debit == a && r.value[1].credit == 0)
              || (r.value[0].debit == a && r.value[0].credit == 0 && r.value[1].credit == a && r.value[1].debit == 0)
    ensures r.Ok? ==> r.value[0].idAccount == ThirdPartyAccount(relKind, relLines) && NonEmptyId(r.value[0].idAccount)
                      && r.value[1].selector == form.account
    ensures form.amount.None? || form.amount.value == 0 ==> r == Err(ImportError.NoAmount)
    ensures form.amount.Some? && form.amount.value != 0 && form.account.None? ==> r == Err(NoSettlementAccount)
    ensures form.amount.Some? && form.amount.value != 0 && form.account.Some? ==>
              (NonEmptyId(ThirdPartyAccount(relKind, relLines)) <==> r.Ok?)
              && (r.Err? ==> r.error == NoThirdPartyAccount)
  {
    if form.amount.None? || form.amount.value == 0 then Err(ImportError.NoAmount)
    else if form.account.None? then Err(NoSettlementAccount)
    else
      var third := ThirdPartyAccount(relKind, relLines);
      if !NonEmptyId(third) then Err(NoThirdPartyAccount)
      else Ok(PayoffEntry(relKind, third, form, setAll))
  }

  /** The pay-off reverses the related entry: a DEBT credited its
      third-party account, so the pay-off debits it; a CREDIT debited it, so
      the pay-off credits it. */
  lemma PayoffReverses(relKind: Option<int>, relLines: seq<Line>, form: Form, setAll: bool)
    requires relKind == Some(DEBT) || relKind == Some(CREDIT)
    requires forall j | 0 <= j < |relLines| :: OneSided(relLines[j])
    requires PayoffLines(relKind, relLines, form, setAll).Ok?
    ensures var i := ThirdPartyIndex(relKind, relLines).value;
            var first := PayoffLines(relKind, relLines, form, setAll).value[0];
            (relKind == Some(DEBT) ==> relLines[i].credit > 0 && first.debit == form.amount.value && first.credit == 0)
            && (relKind == Some(CREDIT) ==> relLines[i].debit > 0 && first.credit == form.amount.value && first.debit == 0)
  {
    var i := ThirdPartyIndex(relKind, relLines).value;
    OneSidedMeans(relLines[i]);
  }

  // ---- opening balance (lines 882-906) ----

  /** The balancing line appended on the opening account, if the imported
      lines do not already balance. */
  function BalancingLine(lines: seq<Line>, account: int): (r: Option<Line>)
    ensures r.None? <==> Balanced(lines)
    ensures r.Some? ==> Balanced(lines + [r.value]) && OneSided(r.value)
                        && r.value.idAccount == Some(account) && r.value.id.None?
  {
    var diff := CreditTotal(lines) - DebitTotal(lines);
    if diff == 0 then None
    else
      var l := if diff > 0 then Line(None, Some(account), None, None, None, 0, diff)
               else Line(None, Some(account), None, None, None, -diff, 0);
      assert (lines + [l])[..|lines|] == lines;
      Some(l)
  }

  // ---- duplicate (lines 366-396) ----

  /** The copy of one stored line in the target chart: dropped when its
      account no longer exists (INNER JOIN), its account re-resolved by code
      (unset when the target chart has no such code), its project kept only
      when the project still exists. */
  function DuplicateRow(l: Line, chart: int, books: Books): (r: seq<Line>)
    requires books.Valid()
    ensures |r| <= 1
    ensures |r| == 1 <==> l.idAccount.Some? && l.idAccount.value in books.accounts
    ensures |r| == 1 ==> r[0].credit == l.credit && r[0].debit == l.debit && r[0].id.None?
                         && (r[0].idAccount.Some? ==> books.InChart(r[0].idAccount.value, chart))
    ensures |r| == 1 ==> r[0].idAccount == books.AccountByCode(chart, books.accounts[l.idAccount.value].code)
                         && r[0].idProject == (if l.idProject.Some? && l.idProject.value in books.projects then l.idProject else None)
                         && r[0].title == l.title && r[0].reference == l.reference
  {
    if l.idAccount.Some? && l.idAccount.value in books.accounts then
      var code := books.accounts[l.idAccount.value].code;
      var project := if l.idProject.Some? && l.idProject.value in books.projects then l.idProject else None;
      [Line(None, books.AccountByCode(chart, code), project, l.title, l.reference, l.credit, l.debit)]
    else []
  }

  function DuplicateLines(lines: seq<Line>, chart: int, books: Books): (r: seq<Line>)
    requires books.Valid()
    ensures |r| <= |lines|
    ensures forall i | 0 <= i < |r| :: r[i].idAccount.Some? ==> books.InChart(r[i].idAccount.value, chart)
  {
    if lines == [] then []
    else DuplicateLines(lines[..|lines| - 1], chart, books) + DuplicateRow(lines[|lines| - 1], chart, books)
  }

  /** One step of duplicate's loop over the prefix `lines[..i]`. */
  lemma DuplicateLinesStep(lines: seq<Line>, i: int, chart: int, books: Books)
    requires books.Valid() && 0 <= i < |lines|
    ensures DuplicateLines(lines[..i + 1], chart, books) == DuplicateLines(lines[..i], chart, books) + DuplicateRow(lines[i], chart, books)
  {
    assert lines[..i + 1][..i] == lines[..i];
  }

  /** The duplicate is built row by row, in order: the copy of a
      concatenation is the concatenation of the copies. */
  lemma {:induction false} DuplicateLinesAppend(a: seq<Line>, b: seq<Line>, chart: int, books: Books)
    requires books.Valid()
    ensures DuplicateLines(a + b, chart, books) == DuplicateLines(a, chart, books) + DuplicateLines(b, chart, books)
    decreases |b|
  {
    if b == [] {
      assert a + b == a;
    } else {
      var init := b[..|b| - 1];
      assert (a + b)[..|a + b| - 1] == a + init;
      assert (a + b)[|a + b| - 1] == b[|b| - 1];
      DuplicateLinesAppend(a, init, chart, books);
    }
  }

  /** When every stored line's account still exists, the duplicate has as
      many lines and the same credit and debit totals, so a balanced entry
      stays balanced. */
  lemma {:induction false} DuplicateKeepsAmounts(lines: seq<Line>, chart: int, books: Books)
    requires books.Valid()
    requires forall i | 0 <= i < |lines| :: lines[i].idAccount.Some? && lines[i].idAccount.value in books.accounts
    ensures |DuplicateLines(lines, chart, books)| == |lines|
    ensures CreditTotal(DuplicateLines(lines, chart, books)) == CreditTotal(lines)
    ensures DebitTotal(DuplicateLines(lines, chart, books)) == DebitTotal(lines)
  {
    if lines != [] {
      var init := lines[..|lines| - 1];
      DuplicateKeepsAmounts(init, chart, books);
      var row := DuplicateRow(lines[|lines| - 1], chart, books);
      assert |row| == 1;
      assert row == [row[0]];
      CreditTotalAppend(DuplicateLines(init, chart, books), row);
      DebitTotalAppend(DuplicateLines(init, chart, books), row);
      assert CreditTotal(row) == row[0].credit && DebitTotal(row) == row[0].debit by {
        assert row[..0] == [];
      }
    }
  }

  /** The date is copied only when it falls in the target year. */
  function DuplicateDate(date: Option<int>, year: Year): (r: Option<int>)
    ensures r.Some? <==> date.Some? && year.start <= date.value <= year.end
    ensures r.Some? ==> r == date
  {
    if date.Some? && year.start <= date.value && date.value <= year.end then date else None
  }

  /** A line left without an account (its code has no counterpart in the
      target chart) makes selfCheck fail, whatever the rest. */
  lemma UnmappedLineFailsCheck(h: Header, lines: seq<Line>, books: Books, k: int)
    requires 0 <= k < |lines| && lines[k].idAccount.None?
    ensures CheckTransaction(h, lines, books).Fail?
  {
    CheckTransactionMeaning(h, lines, books);
  }

  // ---- the import entry points, as functions of the state they change ----

  /** The part of a transaction an import changes: its type and its two line lists. */
  datatype Draft = Draft(kind: Option<int>, lines: seq<Line>, oldLines: seq<Line>)

  /** `$this->type` once importForm has read `(int)$source['type']`. */
  function KindAfter(form: Form, kind: Option<int>): (r: Option<int>)
    ensures form.typeField.None? ==> r == kind
    ensures form.typeField.Some? && LooselyAdvanced(form.typeField.value) ==> r == Some(ADVANCED)
    ensures form.typeField.Some? ==> r.Some?
    ensures forall c | form.typeField == Some(Code(c)) :: r == Some(c)
    ensures forall s | form.typeField == Some(Text(s)) && |s| > 0 && LeadingDigits(s) == s :: r == Some(DigitsValue(s))
  {
    if form.typeField.Some? then Some(CastInt(form.typeField.value)) else kind
  }

  /** A web form sends the type as the text of its code: the one-digit texts
      "0" to "5" give the six type codes. */
  lemma DigitTextKinds(form: Form, kind: Option<int>, d: int)
    requires 0 <= d <= 5
    ensures KindAfter(form.(typeField := Some(Text([('0' as int + d) as char]))), kind) == Some(d)
  {
    var s := [('0' as int + d) as char];
    assert LeadingDigits(s[1..]) == [];
    assert LeadingDigits(s) == s;
    assert s[..0] == [];
    assert DigitsValue(s) == d;
  }

  /** The selector values getTypesDetails gives the two slots of type `t`
      once `t` is the transaction's own type. */
  function SlotChoices(t: int, simple: map<(int, Direction), int>, current: Current,
                       preset: map<(int, Direction), int>): (r: seq<Option<int>>)
    requires IsSimplified(t)
    ensures |r| == 2
    ensures forall i | 0 <= i < 2 && (t, SlotsOf(t)[i].direction) in simple ::
              r[i] == Some(simple[(t, SlotsOf(t)[i].direction)])
    ensures forall i | 0 <= i < 2 && (t, SlotsOf(t)[i].direction) !in simple
                       && SlotsOf(t)[i].direction in current && current[SlotsOf(t)[i].direction].Some? ::
              r[i] == current[SlotsOf(t)[i].direction]
    ensures forall i | 0 <= i < 2 && (t, SlotsOf(t)[i].direction) !in simple
                       && !(SlotsOf(t)[i].direction in current && current[SlotsOf(t)[i].direction].Some?) ::
              r[i] == (if (t, SlotsOf(t)[i].direction) in preset then Some(preset[(t, SlotsOf(t)[i].direction)]) else None)
  {
    var slots := SlotsOf(t);
    [SelectorValue(t, slots[0], Some(t), simple, current, preset),
     SelectorValue(t, slots[1], Some(t), simple, current, preset)]
  }

  /** The lines importForm adds: the two-line expansion when an amount is
      given and the type is set and not ADVANCED, otherwise the form's own
      lines; `None` when the form has no lines, which leaves the lines alone. */
  function FormPlan(form: Form, kind: Option<int>, current: Current,
                    preset: map<(int, Direction), int>, setAll: bool): (r: Result<Option<seq<FormLine>>, ImportError>)
    ensures form.amount.Some? && kind.Some? && kind.value != ADVANCED && r.Ok? ==>
              IsSimplified(kind.value) && form.amount.value != 0 && r.value.Some?
              && r.value.value == SimpleLines(kind.value, form.amount.value,
                                              SlotChoices(kind.value, form.simple, current, preset), form, setAll)
    ensures !(form.amount.Some? && kind.Some? && kind.value != ADVANCED) ==> r == Ok(form.lines)
    ensures r.Err? <==>
              && form.amount.Some? && kind.Some? && kind.value != ADVANCED
              && (|| form.amount.value == 0
                  || !IsSimplified(kind.value)
                  || (!(form.debit.Some? && form.credit.Some?)
                      && None in SlotChoices(kind.value, form.simple, current, preset)))
    ensures r.Err? && form.amount.value == 0 ==> r.error == ImportError.NoAmount
    ensures r.Err? && form.amount.value != 0 && !IsSimplified(kind.value) ==> r.error == NotSimplified(kind.value)
  {
    if form.amount.Some? && kind.Some? && kind.value != ADVANCED then
      var t := kind.value;
      if form.amount.value == 0 then Err(ImportError.NoAmount)
      else if !IsSimplified(t) then Err(NotSimplified(t))
      else
        var sels := SlotChoices(t, form.simple, current, preset);
        var slots := SlotsOf(t);
        var given := form.debit.Some? && form.credit.Some?;
        if !given && sels[0].None? then Err(NoSlotAccount(slots[0].caption))
        else if !given && sels[1].None? then Err(NoSlotAccount(slots[1].caption))
        else Ok(Some(SimpleLines(t, form.amount.value, sels, form, setAll)))
    else Ok(form.lines)
  }

  /** importForm: set the type, choose the lines, and when there are lines
      move the current ones to the removed list and add the new ones one by
      one until one fails. */
  function FormImport(d: Draft, form: Form, ownYear: Option<int>, preset: map<(int, Direction), int>,
                      books: Books, setAll: bool): (r: (Draft, Outcome<ImportError>))
    requires books.Valid()
  {
    var kind := KindAfter(form, d.kind);
    match FormPlan(form, kind, CurrentAccounts(d.lines, map[]), preset, setAll)
    case Err(e) => (d.(kind := kind), Fail(e))
    case Ok(None) => (d.(kind := kind), Pass)
    case Ok(Some(fls)) =>
      var (added, outcome) := ResolveAll(fls, YearFor(form.idYear, ownYear), books);
      (Draft(kind, added, d.lines), outcome)
  }

  /** `TYPE_ADVANCED != ($source['type'] ?? ($this->type ?? TYPE_ADVANCED))` fails. */
  predicate AdvancedRequested(form: Form, kind: Option<int>)
  {
    if form.typeField.Some? then LooselyAdvanced(form.typeField.value)
    else kind.None? || kind.value == ADVANCED
  }

  /** importFromNewForm: any type but ADVANCED needs an amount. */
  function NewFormImport(d: Draft, form: Form, ownYear: Option<int>, preset: map<(int, Direction), int>,
                         books: Books, setAll: bool): (r: (Draft, Outcome<ImportError>))
    requires books.Valid()
  {
    if !AdvancedRequested(form, d.kind) && form.amount.None? then (d, Fail(ImportError.NoAmount))
    else FormImport(d, form, ownYear, preset, books, setAll)
  }

  /** The form importFromAPI passes on: a type name replaced by its code. */
  function ApiForm(form: Form): (r: Form)
    ensures r == form.(typeField := r.typeField)
    ensures form.typeField.None? <==> r.typeField.None?
  {
    if form.typeField.Some? then form.(typeField := Some(ApiTypeField(form.typeField.value))) else form
  }

  function ApiImport(d: Draft, form: Form, ownYear: Option<int>, preset: map<(int, Direction), int>,
                     books: Books, setAll: bool): (Draft, Outcome<ImportError>)
    requires books.Valid()
  {
    NewFormImport(d, ApiForm(form), ownYear, preset, books, setAll)
  }

  /** The bank line of a deposit: the whole amount debited on the deposit account. */
  function DepositLine(account: int, amount: int): (l: Line)
    ensures l.idAccount == Some(account) && l.debit == amount && l.credit == 0 && l.id.None?
  {
    Line(None, Some(account), None, None, None, 0, amount)
  }

  /** importFromDepositForm: needs an amount and a deposit account, makes
      the transaction ADVANCED, adds the bank line, then imports the form. */
  function DepositImport(d: Draft, form: Form, ownYear: Option<int>, preset: map<(int, Direction), int>,
                         books: Books, setAll: bool): (r: (Draft, Outcome<ImportError>))
    requires books.Valid()
  {
    if form.amount.None? || form.amount.value == 0 then (d, Fail(ImportError.NoAmount))
    else
      var d1 := d.(kind := Some(ADVANCED));
      if form.accountTransfer.None? then (d1, Fail(NoDepositAccount))
      else
        var d2 := d1.(lines := d1.lines + [DepositLine(form.accountTransfer.value, form.amount.value)]);
        FormImport(d2, form, ownYear, preset, books, setAll)
  }

  /** What a pay-off reads of the related transaction. */
  datatype RelatedEntry = RelatedEntry(kind: Option<int>, lines: seq<Line>)

  /** importFromPayoffForm: the form's type and lines are dropped and
      replaced by the pay-off entry. */
  function PayoffImport(d: Draft, related: Option<RelatedEntry>, form: Form, ownYear: Option<int>,
                        preset: map<(int, Direction), int>, books: Books, setAll: bool): (r: (Draft, Outcome<ImportError>))
    requires books.Valid()
  {
    if related.None? then (d, Fail(NoRelated))
    else
      var f := form.(typeField := None, lines := None);
      match PayoffLines(related.value.kind, related.value.lines, f, setAll)
      case Err(e) => (d, Fail(e))
      case Ok(fls) => NewFormImport(d, f.(lines := Some(fls)), ownYear, preset, books, setAll)
  }

  /** importFromBalanceForm: import as ADVANCED in the given year, then
      balance the entry on the chart's opening account. */
  function BalanceImport(d: Draft, form: Form, yearId: int, preset: map<(int, Direction), int>,
                         books: Books, setAll: bool): (r: (Draft, Outcome<ImportError>))
    requires books.Valid() && yearId in books.years
  {
    var (d2, outcome) := NewFormImport(d.(kind := Some(ADVANCED)), form, Some(yearId), preset, books, setAll);
    if outcome.Fail? then (d2, outcome) else BalanceTail(d2, yearId, books)
  }

  /** The end of importFromBalanceForm, once the form is imported: balanced
      lines are kept, otherwise the year's opening account takes the
      difference, and a chart without one refuses the entry. */
  function BalanceTail(d: Draft, yearId: int, books: Books): (r: (Draft, Outcome<ImportError>))
    requires yearId in books.years
  {
    if Balanced(d.lines) then (d, Pass)
    else
      var chart := books.years[yearId].chart;
      if chart !in books.opening then (d, Fail(NoOpeningAccount))
      else (d.(lines := d.lines + [BalancingLine(d.lines, books.opening[chart]).value]), Pass)
  }

  // ---- what the imports guarantee ----

  /** A simplified form that imports without error replaces the lines by
      one credit and one debit line of the form's amount. */
  lemma SimpleFormBalanced(d: Draft, form: Form, ownYear: Option<int>, preset: map<(int, Direction), int>,
                           books: Books, setAll: bool)
    requires books.Valid() && form.amount.Some?
    requires KindAfter(form, d.kind).Some? && KindAfter(form, d.kind).value != ADVANCED
    requires FormImport(d, form, ownYear, preset, books, setAll).1.Pass?
    ensures var r := FormImport(d, form, ownYear, preset, books, setAll).0;
            |r.lines| == 2 && Balanced(r.lines) && CreditTotal(r.lines) == form.amount.value
            && r.oldLines == d.lines && IsSimplified(r.kind.value)
  {
    var t := KindAfter(form, d.kind).value;
    var sels := SlotChoices(t, form.simple, CurrentAccounts(d.lines, map[]), preset);
    SimpleImportBalanced(t, form.amount.value, sels, form, setAll, YearFor(form.idYear, ownYear), books);
  }

  /** Importing an ADVANCED form without lines changes no line. */
  lemma AdvancedFormWithoutLinesKeepsLines(d: Draft, form: Form, ownYear: Option<int>,
                                           preset: map<(int, Direction), int>, books: Books, setAll: bool)
    requires books.Valid() && form.lines.None?
    requires form.typeField.Some? && LooselyAdvanced(form.typeField.value)
    ensures FormImport(d, form, ownYear, preset, books, setAll) == (d.(kind := Some(ADVANCED)), Pass)
  {
  }

  /** The API accepts each type by its name, in upper or lower case, exactly
      as the new-transaction form accepts its code. */
  lemma ApiNamesMatchCodes(d: Draft, form: Form, t: int, ownYear: Option<int>,
                           preset: map<(int, Direction), int>, books: Books, setAll: bool)
    requires books.Valid() && IsKnownType(t)
    ensures ApiImport(d, form.(typeField := Some(Text(TypeName(t)))), ownYear, preset, books, setAll)
            == NewFormImport(d, form.(typeField := Some(Code(t))), ownYear, preset, books, setAll)
    ensures ApiImport(d, form.(typeField := Some(Text(Lower(TypeName(t))))), ownYear, preset, books, setAll)
            == NewFormImport(d, form.(typeField := Some(Code(t))), ownYear, preset, books, setAll)
  {
    ApiNameRoundTrip(t);
  }

  /** A deposit form without lines of its own ends with the bank line
      debiting the deposit account for the whole amount, after the lines
      already there. */
  lemma DepositAddsBankLine(d: Draft, form: Form, ownYear: Option<int>, preset: map<(int, Direction), int>,
                            books: Books, setAll: bool)
    requires books.Valid() && form.lines.None? && form.typeField.None?
    requires DepositImport(d, form, ownYear, preset, books, setAll).1.Pass?
    ensures var r := DepositImport(d, form, ownYear, preset, books, setAll).0;
            r.kind == Some(ADVANCED) && r.oldLines == d.oldLines
            && r.lines == d.lines + [DepositLine(form.accountTransfer.value, form.amount.value)]
  {
  }

  /** A pay-off imported into an ADVANCED transaction is a balanced pair of
      lines for the form's amount whose first line reverses the related
      entry's third-party line. */
  lemma PayoffBalanced(d: Draft, related: RelatedEntry, form: Form, ownYear: Option<int>,
                       preset: map<(int, Direction), int>, books: Books, setAll: bool)
    requires books.Valid() && TypeIs(d.kind, ADVANCED)
    requires PayoffImport(d, Some(related), form, ownYear, preset, books, setAll).1.Pass?
    ensures var r := PayoffImport(d, Some(related), form, ownYear, preset, books, setAll).0;
            |r.lines| == 2 && Balanced(r.lines) && CreditTotal(r.lines) == form.amount.value
            && r.lines[0].idAccount == ThirdPartyAccount(related.kind, related.lines)
  {
    var f := form.(typeField := None, lines := None);
    var fls := PayoffLines(related.kind, related.lines, f, setAll).value;
    var ls := ResolveAll(fls, YearFor(form.idYear, ownYear), books).0;
    assert ls == [ls[0], ls[1]];
    TotalsOfPair(ls[0], ls[1]);
  }

  /** An opening balance that imports without error is balanced; when the
      imported lines balance already no line is added, otherwise exactly one
      one-sided line on the chart's opening account. */
  lemma BalanceFormBalanced(d: Draft, form: Form, yearId: int, preset: map<(int, Direction), int>,
                            books: Books, setAll: bool)
    requires books.Valid() && yearId in books.years
    requires BalanceImport(d, form, yearId, preset, books, setAll).1.Pass?
    ensures var imported := NewFormImport(d.(kind := Some(ADVANCED)), form, Some(yearId), preset, books, setAll).0;
            var r := BalanceImport(d, form, yearId, preset, books, setAll).0;
            && Balanced(r.lines)
            && (Balanced(imported.lines) ==> r == imported)
            && (!Balanced(imported.lines) ==>
                  |r.lines| == |imported.lines| + 1 && r.lines[..|imported.lines|] == imported.lines
                  && OneSided(r.lines[|imported.lines|])
                  && r.lines[|imported.lines|].idAccount == Some(books.opening[books.years[yearId].chart])
                  && books.accounts[books.opening[books.years[yearId].chart]].kind == AccountType.Opening)
  {
    var imported := NewFormImport(d.(kind := Some(ADVANCED)), form, Some(yearId), preset, books, setAll).0;
    if !Balanced(imported.lines) {
      var r := BalanceImport(d, form, yearId, preset, books, setAll).0;
      assert r.lines[..|imported.lines|] == imported.lines;
    }
  }

  /** When the opening balance cannot be completed: an import that fails
      fails the whole, and imported lines that do not balance in a chart
      without an opening account are refused with the lines kept. */
  lemma BalanceFormFailures(d: Draft, form: Form, yearId: int, preset: map<(int, Direction), int>,
                            books: Books, setAll: bool)
    requires books.Valid() && yearId in books.years
    ensures var imported := NewFormImport(d.(kind := Some(ADVANCED)), form, Some(yearId), preset, books, setAll);
            var r := BalanceImport(d, form, yearId, preset, books, setAll);
            && (imported.1.Fail? ==> r == imported)
            && (imported.1.Pass? && !Balanced(imported.0.lines) && books.years[yearId].chart !in books.opening ==>
                  r == (imported.0, Fail(NoOpeningAccount)))
  {
  }

  /** A type name the API does not know is not a code: without an amount the
      import is refused, and with one the transaction silently becomes
      ADVANCED. */
  lemma UnknownApiName(d: Draft, form: Form, name: string, ownYear: Option<int>,
                       preset: map<(int, Direction), int>, books: Books, setAll: bool)
    requires books.Valid() && IsAlpha(name) && CodeOfName(Upper(name)).None?
    ensures var f := form.(typeField := Some(Text(name)));
            && (form.amount.None? ==> ApiImport(d, f, ownYear, preset, books, setAll) == (d, Fail(ImportError.NoAmount)))
            && (form.amount.Some? ==> ApiImport(d, f, ownYear, preset, books, setAll).0.kind == Some(ADVANCED))
  {
    UnknownApiNameIsAdvanced(name);
    assert !LooselyAdvanced(Text(name)) by {
      assert LeadingDigits(name) == [];
    }
  }
}
