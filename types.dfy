/** Transaction type codes, the account-type -> transaction-type mapping,
    the vote-based type inference and the type field as it arrives from a
    form or the API. */
module Types {
  import opened Wrappers
  import opened Books
  import opened Lines

  const ADVANCED: int := 0
  const REVENUE: int := 1
  const EXPENSE: int := 2
  const TRANSFER: int := 3
  const DEBT: int := 4
  const CREDIT: int := 5

  /** `array_key_exists($type, self::TYPES_NAMES)`: one of the six codes. */
  predicate IsKnownType(t: int) { ADVANCED <= t <= CREDIT }

  /** The five types that have a two-slot simplified form. */
  predicate IsSimplified(t: int) { REVENUE <= t <= CREDIT }

  /** PHP `$this->type == CODE` on the nullable type: null equals 0 (ADVANCED) only. */
  predicate TypeIs(kind: Option<int>, code: int)
  {
    match kind
    case None => code == 0
    case Some(k) => k == code
  }

  /** `getTypeFromAccountType`. */
  function TypeFromAccountType(a: AccountType): (t: int)
    ensures IsKnownType(t) && t != CREDIT
    ensures t == REVENUE <==> a == AccountType.Revenue
    ensures t == EXPENSE <==> a == AccountType.Expense
    ensures t == DEBT <==> a == ThirdParty
    ensures t == TRANSFER <==> a in {Bank, Cash, Outstanding}
    ensures t == ADVANCED <==> a in {Opening, NoType}
  {
    match a
    case Revenue => REVENUE
    case Expense => EXPENSE
    case ThirdParty => DEBT
    case Bank | Cash | Outstanding => TRANSFER
    case _ => ADVANCED
  }

  /** `$line->account_position`: null when the line's account is unknown. */
  function PositionOf(l: Line, books: Books): Option<Position>
  {
    if l.idAccount.Some? && l.idAccount.value in books.accounts
    then Some(books.accounts[l.idAccount.value].position) else None
  }

  /** The vote one line casts in findTypeFromAccounts: a credit on a revenue
      account votes REVENUE, a debit on an expense account votes EXPENSE. */
  function Vote(l: Line, books: Books): Option<int>
  {
    if PositionOf(l, books) == Some(Position.Revenue) && IsCredit(l) then Some(REVENUE)
    else if PositionOf(l, books) == Some(Position.Expense) && IsDebit(l) then Some(EXPENSE)
    else None
  }

  function VoteList(l: Line, books: Books): seq<int>
  {
    match Vote(l, books)
    case Some(v) => [v]
    case None => []
  }

  /** The `$types` list after visiting `lines` in order. */
  function Votes(lines: seq<Line>, books: Books): seq<int>
  {
    if lines == [] then []
    else Votes(lines[..|lines| - 1], books) + VoteList(lines[|lines| - 1], books)
  }

  /** What findTypeFromAccounts answers. */
  function InferredType(lines: seq<Line>, books: Books): int
  {
    if |lines| != 2 then ADVANCED
    else
      var votes := Votes(lines, books);
      if |votes| != 1 then ADVANCED else votes[0]
  }

  /** The inferred type is ADVANCED, REVENUE or EXPENSE, and it is REVENUE
      (resp. EXPENSE) exactly when there are two lines, one of them votes for
      it and the other casts no vote. */
  lemma InferredTypeCases(lines: seq<Line>, books: Books)
    ensures InferredType(lines, books) in {ADVANCED, REVENUE, EXPENSE}
    ensures InferredType(lines, books) != ADVANCED ==> |lines| == 2
    ensures |lines| == 2 ==>
      (InferredType(lines, books) == REVENUE <==>
         (Vote(lines[0], books) == Some(REVENUE) && Vote(lines[1], books).None?)
         || (Vote(lines[0], books).None? && Vote(lines[1], books) == Some(REVENUE)))
    ensures |lines| == 2 ==>
      (InferredType(lines, books) == EXPENSE <==>
         (Vote(lines[0], books) == Some(EXPENSE) && Vote(lines[1], books).None?)
         || (Vote(lines[0], books).None? && Vote(lines[1], books) == Some(EXPENSE)))
  {
    if |lines| == 2 {
      assert lines[..1][..0] == [];
      assert lines[..|lines| - 1] == lines[..1];
      assert Votes(lines[..1], books) == VoteList(lines[0], books);
      assert Votes(lines, books) == VoteList(lines[0], books) + VoteList(lines[1], books);
    }
  }

  // ---- the type field of an imported form ----

  /** `$source['type']`: an integer code (from the API name mapping) or the raw form text. */
  datatype TypeField = Code(code: int) | Text(text: string)

  predicate IsDigit(c: char) { '0' <= c <= '9' }

  predicate IsLetter(c: char) { 'a' <= c <= 'z' || 'A' <= c <= 'Z' }

  /** `ctype_alpha($s)`: non-empty and only ASCII letters. */
  predicate IsAlpha(s: string) { |s| > 0 && forall i | 0 <= i < |s| :: IsLetter(s[i]) }

  /** The longest prefix of decimal digits. */
  function LeadingDigits(s: string): (p: string)
    ensures |p| <= |s| && p == s[..|p|]
    ensures forall i | 0 <= i < |p| :: IsDigit(p[i])
    ensures |p| < |s| ==> !IsDigit(s[|p|])
  {
    if s != [] && IsDigit(s[0]) then [s[0]] + LeadingDigits(s[1..]) else []
  }

  /** The decimal value of a string of digits. */
  function DigitsValue(s: string): nat
    requires forall i | 0 <= i < |s| :: IsDigit(s[i])
  {
    if s == [] then 0
    else
      assert IsDigit(s[|s| - 1]);
      10 * DigitsValue(s[..|s| - 1]) + (s[|s| - 1] as int - '0' as int)
  }

  /** `(int)$source['type']`. */
  function CastInt(f: TypeField): int
  {
    match f
    case Code(c) => c
    case Text(s) => DigitsValue(LeadingDigits(s))
  }

  /** PHP 8 `TYPE_ADVANCED == $type`: a numeric string compares by value,
      any other string compares as text with "0". */
  predicate LooselyAdvanced(f: TypeField)
  {
    match f
    case Code(c) => c == ADVANCED
    case Text(s) => |s| > 0 && LeadingDigits(s) == s && DigitsValue(s) == 0
  }

  /** The constant names `TYPE_<NAME>` of the class, by code. */
  function TypeName(t: int): string
    requires IsKnownType(t)
  {
    ["ADVANCED", "REVENUE", "EXPENSE", "TRANSFER", "DEBT", "CREDIT"][t]
  }

  function UpperChar(c: char): char
  {
    if 'a' <= c <= 'z' then (c as int - 32) as char else c
  }

  /** `strtoupper` on ASCII text. */
  function Upper(s: string): (u: string)
    ensures |u| == |s| && forall i | 0 <= i < |s| :: u[i] == UpperChar(s[i])
  {
    seq(|s|, i requires 0 <= i < |s| => UpperChar(s[i]))
  }

  function LowerChar(c: char): char
  {
    if 'A' <= c <= 'Z' then (c as int + 32) as char else c
  }

  function Lower(s: string): (l: string)
    ensures |l| == |s| && forall i | 0 <= i < |s| :: l[i] == LowerChar(s[i])
  {
    seq(|s|, i requires 0 <= i < |s| => LowerChar(s[i]))
  }

  /** The code whose constant is `TYPE_<u>`, if one is defined. */
  function CodeOfName(u: string): (r: Option<int>)
    ensures r.Some? ==> IsKnownType(r.value) && TypeName(r.value) == u
    ensures r.None? ==> forall t | IsKnownType(t) :: TypeName(t) != u
  {
    if u == "ADVANCED" then Some(ADVANCED)
    else if u == "REVENUE" then Some(REVENUE)
    else if u == "EXPENSE" then Some(EXPENSE)
    else if u == "TRANSFER" then Some(TRANSFER)
    else if u == "DEBT" then Some(DEBT)
    else if u == "CREDIT" then Some(CREDIT)
    else None
  }

  /** importFromAPI: a purely alphabetic type, read case-insensitively, is
      replaced by the code of its constant; anything else is left as it is. */
  function ApiTypeField(f: TypeField): (r: TypeField)
    ensures r != f ==> f.Text? && IsAlpha(f.text) && r.Code? && IsKnownType(r.code)
                       && TypeName(r.code) == Upper(f.text)
    ensures f.Text? && IsAlpha(f.text) && (exists t | IsKnownType(t) :: TypeName(t) == Upper(f.text)) ==> r.Code?
  {
    match f
    case Code(_) => f
    case Text(s) =>
      if IsAlpha(s) then
        match CodeOfName(Upper(s))
        case Some(t) => Code(t)
        case None => f
      else f
  }

  lemma {:induction false} UpperLower(s: string)
    requires IsAlpha(s)
    ensures IsAlpha(Lower(s)) && Upper(Lower(s)) == Upper(s)
  {
  }

  /** Every type name is accepted by the API in upper and in lower case, and
      maps back to its own code. */
  lemma ApiNameRoundTrip(t: int)
    requires IsKnownType(t)
    ensures ApiTypeField(Text(TypeName(t))) == Code(t)
    ensures ApiTypeField(Text(Lower(TypeName(t)))) == Code(t)
  {
    var n := TypeName(t);
    assert IsAlpha(n);
    assert Upper(n) == n;
    UpperLower(n);
  }

  /** A purely alphabetic name that names no type is cast by `(int)` to 0,
      so the transaction silently becomes ADVANCED. */
  lemma UnknownApiNameIsAdvanced(s: string)
    requires IsAlpha(s) && CodeOfName(Upper(s)).None?
    ensures ApiTypeField(Text(s)) == Text(s)
    ensures CastInt(ApiTypeField(Text(s))) == ADVANCED
  {
    assert LeadingDigits(s) == [];
  }
}
