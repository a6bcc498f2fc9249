/** `Transaction::selfCheck`: the consistency rules every transaction must
    satisfy before it is written, in the order the code tests them. */
module Checks {
  import opened Wrappers
  import opened Books
  import opened Lines
  import opened Types

  /** The scalar fields of a transaction that the checks read. `id` is
      `None` until the transaction is saved (`exists()`). */
  datatype Header = Header(
    id: Option<int>,
    kind: Option<int>,
    title: string,
    notes: Option<string>,
    reference: Option<string>,
    date: Option<int>,
    idYear: Option<int>,
    idCreator: Option<int>,
    idRelated: Option<int>)

  /** What is wrong with one line. */
  datatype LineFault = NoAccount | NoAmount | NegativeAmount | BothSides | WrongChart

  /** The first rule selfCheck finds broken; line numbers start at 1. */
  datatype CheckError =
    | NoYear | EmptyLabel | LabelTooLong | ReferenceTooLong | NotesTooLong | NoDate
    | UnknownType | UnknownCreator | DateOutsideYear
    | NoLines | OneLine | TooManyLines
    | BadLine(line: nat, fault: LineFault)
    | Unbalanced(imbalance: int)
    | UnknownRelated | RelatedToItself

  const MAX_LABEL: nat := 200
  const MAX_REFERENCE: nat := 200
  const MAX_NOTES: nat := 2000

  /** A character `trim` removes. */
  predicate IsSpace(c: char)
  {
    c == ' ' || c == '\t' || c == '\n' || c == '\r' || c as int == 0 || c as int == 11
  }

  /** `trim($s) === ''`. */
  predicate Blank(s: string) { forall i | 0 <= i < |s| :: IsSpace(s[i]) }

  /** `!empty($id)` on a nullable id. */
  predicate NonEmptyId(x: Option<int>) { x.Some? && x.value != 0 }

  predicate WithinLength(s: Option<string>, max: nat) { s.None? || |s.value| <= max }

  /** The rules on the scalar fields (lines 581-595). */
  ghost predicate HeaderOk(h: Header, books: Books)
  {
    && NonEmptyId(h.idYear)
    && !Blank(h.title) && |h.title| <= MAX_LABEL
    && WithinLength(h.reference, MAX_REFERENCE) && WithinLength(h.notes, MAX_NOTES)
    && h.date.Some?
    && h.kind.Some? && IsKnownType(h.kind.value)
    && (h.idCreator.None? || h.idCreator.value in books.members)
    && books.InYear(h.idYear.value, h.date.value)
  }

  function CheckHeader(h: Header, books: Books): (r: Outcome<CheckError>)
    ensures r.Pass? <==> HeaderOk(h, books)
    ensures r.Fail? ==> r.error in {NoYear, EmptyLabel, LabelTooLong, ReferenceTooLong, NotesTooLong,
                                    NoDate, UnknownType, UnknownCreator, DateOutsideYear}
  {
    if !NonEmptyId(h.idYear) then Fail(NoYear)
    else if Blank(h.title) then Fail(EmptyLabel)
    else if |h.title| > MAX_LABEL then Fail(LabelTooLong)
    else if !WithinLength(h.reference, MAX_REFERENCE) then Fail(ReferenceTooLong)
    else if !WithinLength(h.notes, MAX_NOTES) then Fail(NotesTooLong)
    else if h.date.None? then Fail(NoDate)
    else if h.kind.None? || !IsKnownType(h.kind.value) then Fail(UnknownType)
    else if h.idCreator.Some? && h.idCreator.value !in books.members then Fail(UnknownCreator)
    else if !books.InYear(h.idYear.value, h.date.value) then Fail(DateOutsideYear)
    else Pass
  }

  /** The line count rule (lines 602-604): at least two lines, and exactly
      two unless the type is ADVANCED. */
  function CheckCount(kind: Option<int>, n: nat): (r: Outcome<CheckError>)
    ensures r.Pass? <==> n >= 2 && (n == 2 || TypeIs(kind, ADVANCED))
  {
    if n == 0 then Fail(NoLines)
    else if n < 2 then Fail(OneLine)
    else if n != 2 && !TypeIs(kind, ADVANCED) then Fail(TooManyLines)
    else Pass
  }

  /** A line that passes the per-line rules. */
  ghost predicate LineOk(l: Line, chart: int, books: Books)
  {
    HasAccount(l) && OneSided(l) && books.InChart(l.idAccount.value, chart)
  }

  /** The per-line rules for line number `k` (lines 611-615). */
  function CheckLine(l: Line, k: nat, chart: int, books: Books): (r: Outcome<CheckError>)
    ensures r.Pass? <==> LineOk(l, chart, books)
    ensures r.Fail? ==> r.error.BadLine? && r.error.line == k
  {
    if !HasAccount(l) then Fail(BadLine(k, NoAccount))
    else if !(IsCredit(l) || IsDebit(l)) then Fail(BadLine(k, NoAmount))
    else if !(l.credit >= 0 && l.debit >= 0) then Fail(BadLine(k, NegativeAmount))
    else if !(l.credit * l.debit == 0 && l.credit + l.debit > 0) then Fail(BadLine(k, BothSides))
    else if !books.InChart(l.idAccount.value, chart) then Fail(BadLine(k, WrongChart))
    else Pass
  }

  /** The faults name what is wrong: an amount-less line has both sides at 0,
      a "both sides" line has both sides positive. */
  lemma LineFaultMeaning(l: Line, k: nat, chart: int, books: Books)
    ensures CheckLine(l, k, chart, books) == Fail(BadLine(k, NoAmount)) ==> l.credit == 0 && l.debit == 0
    ensures CheckLine(l, k, chart, books) == Fail(BadLine(k, BothSides)) ==> l.credit > 0 && l.debit > 0
    ensures HasAccount(l) && ((l.credit > 0 && l.debit > 0) || (l.credit == 0 && l.debit == 0)) ==>
              CheckLine(l, k, chart, books).Fail?
  {
    if l.credit > 0 && l.debit > 0 {
      assert l.credit * l.debit > 0;
    }
  }

  /** The line loop from index `i` on; line `i` is numbered `i + 1`. */
  function CheckLinesFrom(lines: seq<Line>, i: nat, chart: int, books: Books): Outcome<CheckError>
    requires i <= |lines|
    decreases |lines| - i
  {
    if i == |lines| then Pass
    else
      match CheckLine(lines[i], i + 1, chart, books)
      case Fail(e) => Fail(e)
      case Pass => CheckLinesFrom(lines, i + 1, chart, books)
  }

  /** The loop passes exactly when every remaining line passes, and when it
      fails it reports the number of the first bad line. */
  lemma {:induction false} CheckLinesFromMeaning(lines: seq<Line>, i: nat, chart: int, books: Books)
    requires i <= |lines|
    ensures CheckLinesFrom(lines, i, chart, books).Pass? <==>
              forall j | i <= j < |lines| :: LineOk(lines[j], chart, books)
    ensures CheckLinesFrom(lines, i, chart, books).Fail? ==>
              var e := CheckLinesFrom(lines, i, chart, books).error;
              e.BadLine? && i < e.line <= |lines| && !LineOk(lines[e.line - 1], chart, books)
              && forall j | i <= j < e.line - 1 :: LineOk(lines[j], chart, books)
    decreases |lines| - i
  {
    if i < |lines| {
      CheckLinesFromMeaning(lines, i + 1, chart, books);
    }
  }

  predicate RelatedOk(h: Header, books: Books)
  {
    !NonEmptyId(h.idRelated)
    || (h.idRelated.value in books.transactions && (h.id.None? || h.idRelated.value != h.id.value))
  }

  /** The related-transaction rules (lines 626-627). */
  function CheckRelated(h: Header, books: Books): (r: Outcome<CheckError>)
    ensures r.Pass? <==> RelatedOk(h, books)
  {
    if NonEmptyId(h.idRelated) && h.idRelated.value !in books.transactions then Fail(UnknownRelated)
    else if NonEmptyId(h.idRelated) && h.id.Some? && h.idRelated.value == h.id.value then Fail(RelatedToItself)
    else Pass
  }

  /** selfCheck as a whole: the first failing rule, or Pass. */
  function CheckTransaction(h: Header, lines: seq<Line>, books: Books): Outcome<CheckError>
  {
    match CheckHeader(h, books)
    case Fail(e) => Fail(e)
    case Pass =>
      var chart := books.years[h.idYear.value].chart;
      match CheckCount(h.kind, |lines|)
      case Fail(e) => Fail(e)
      case Pass =>
        match CheckLinesFrom(lines, 0, chart, books)
        case Fail(e) => Fail(e)
        case Pass =>
          if CreditTotal(lines) - DebitTotal(lines) != 0 then Fail(Unbalanced(CreditTotal(lines) - DebitTotal(lines)))
          else CheckRelated(h, books)
  }

  /** Everything selfCheck demands, stated declaratively. */
  ghost predicate Valid(h: Header, lines: seq<Line>, books: Books)
  {
    && HeaderOk(h, books)
    && |lines| >= 2 && (|lines| == 2 || TypeIs(h.kind, ADVANCED))
    && (forall i | 0 <= i < |lines| :: LineOk(lines[i], books.years[h.idYear.value].chart, books))
    && Balanced(lines)
    && RelatedOk(h, books)
  }

  /** selfCheck passes if and only if the transaction satisfies every rule. */
  lemma CheckTransactionMeaning(h: Header, lines: seq<Line>, books: Books)
    ensures CheckTransaction(h, lines, books).Pass? <==> Valid(h, lines, books)
  {
    if HeaderOk(h, books) {
      CheckLinesFromMeaning(lines, 0, books.years[h.idYear.value].chart, books);
    }
  }

  /** A transaction that passes selfCheck is balanced with a positive sum,
      made of pure debit and pure credit lines, has at least two lines, and
      more than two only when ADVANCED. */
  lemma PassedIsBalanced(h: Header, lines: seq<Line>, books: Books)
    requires CheckTransaction(h, lines, books).Pass?
    ensures Balanced(lines) && |lines| >= 2 && CreditTotal(lines) > 0
    ensures |lines| > 2 ==> h.kind == Some(ADVANCED)
    ensures forall i | 0 <= i < |lines| ::
              (lines[i].credit > 0 && lines[i].debit == 0) || (lines[i].debit > 0 && lines[i].credit == 0)
  {
    CheckTransactionMeaning(h, lines, books);
    forall i | 0 <= i < |lines|
      ensures (lines[i].credit > 0 && lines[i].debit == 0) || (lines[i].debit > 0 && lines[i].credit == 0)
    {
      OneSidedMeans(lines[i]);
    }
    TotalsOfOneSided(lines);
  }

  /** When header and lines are otherwise fine, a non-zero imbalance is
      reported with its amount. */
  lemma ImbalanceIsReported(h: Header, lines: seq<Line>, books: Books)
    requires HeaderOk(h, books) && |lines| >= 2 && (|lines| == 2 || TypeIs(h.kind, ADVANCED))
    requires forall i | 0 <= i < |lines| :: LineOk(lines[i], books.years[h.idYear.value].chart, books)
    requires !Balanced(lines)
    ensures CheckTransaction(h, lines, books) == Fail(Unbalanced(CreditTotal(lines) - DebitTotal(lines)))
  {
    CheckLinesFromMeaning(lines, 0, books.years[h.idYear.value].chart, books);
  }
}
