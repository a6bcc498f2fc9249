/** The simplified-form table of `getTypesDetails`: for each of the five
    simplified types, an ordered pair of account slots, and how the value
    shown in a slot is chosen. */
module Slots {
  import opened Wrappers
  import opened Books
  import opened Lines
  import opened Types

  datatype Direction = Credit | Debit

  function Opposite(d: Direction): Direction
  {
    match d
    case Credit => Debit
    case Debit => Credit
  }

  /** One account selector of a simplified form: its caption, the account
      types it offers, the side of the entry it fills, and for which
      previously selected types it carries over the account chosen on which side. */
  datatype Slot = Slot(caption: string, targets: set<AccountType>, direction: Direction, defaults: map<int, Direction>)

  const Treasury: set<AccountType> := {Bank, Cash, Outstanding}

  /** `getTypesDetails(...)[$type]->accounts`; ADVANCED (and any code outside
      the table) has no slots. */
  function SlotsOf(t: int): (slots: seq<Slot>)
    ensures IsSimplified(t) <==> |slots| == 2
    ensures !IsSimplified(t) ==> slots == []
    ensures IsSimplified(t) ==> slots[1].direction == Opposite(slots[0].direction)
    ensures forall i | 0 <= i < |slots| ::
              slots[i].targets != {} && t !in slots[i].defaults
              && forall u | u in slots[i].defaults :: IsSimplified(u)
  {
    if t == REVENUE then
      [ Slot("Type de recette", {AccountType.Revenue}, Credit, map[CREDIT := Credit]),
        Slot("Compte d'encaissement", Treasury, Debit, map[EXPENSE := Credit, TRANSFER := Credit]) ]
    else if t == EXPENSE then
      [ Slot("Type de dépense", {AccountType.Expense}, Debit, map[DEBT := Debit]),
        Slot("Compte de décaissement", Treasury, Credit, map[REVENUE := Debit, TRANSFER := Credit]) ]
    else if t == TRANSFER then
      [ Slot("De", Treasury, Credit, map[EXPENSE := Credit, REVENUE := Debit]),
        Slot("Vers", Treasury, Debit, map[]) ]
    else if t == DEBT then
      [ Slot("Type de dette (dépense)", {AccountType.Expense}, Debit, map[EXPENSE := Debit]),
        Slot("Compte de tiers", {ThirdParty}, Credit, map[CREDIT := Debit]) ]
    else if t == CREDIT then
      [ Slot("Type de créance (recette)", {AccountType.Revenue}, Credit, map[REVENUE := Credit]),
        Slot("Compte de tiers", {ThirdParty}, Debit, map[DEBT := Credit]) ]
    else []
  }

  /** The table agrees with the classifier: the first slot of a revenue or
      expense form offers only accounts of that type, both transfer slots only
      treasury accounts, and the second slot of a debt or credit form only
      third-party accounts (which classify as DEBT). */
  lemma SlotTargetsClassify(t: int, a: AccountType)
    requires IsSimplified(t)
    ensures (t == REVENUE || t == EXPENSE) && a in SlotsOf(t)[0].targets ==> TypeFromAccountType(a) == t
    ensures t == TRANSFER && (a in SlotsOf(t)[0].targets || a in SlotsOf(t)[1].targets) ==> TypeFromAccountType(a) == TRANSFER
    ensures (t == DEBT || t == CREDIT) && a in SlotsOf(t)[1].targets ==> TypeFromAccountType(a) == DEBT
  {
  }

  /** A carried-over selection always lands on a slot of the previous type
      that has the declared side and offers the same account types. */
  lemma DefaultsPointToMatchingSlot(t: int, i: int, u: int)
    requires IsSimplified(t) && 0 <= i < 2 && u in SlotsOf(t)[i].defaults
    ensures exists j | 0 <= j < 2 :: SlotsOf(u)[j].direction == SlotsOf(t)[i].defaults[u]
                                     && SlotsOf(u)[j].targets == SlotsOf(t)[i].targets
  {
    assert IsSimplified(u);
    if t == REVENUE && i == 0 { assert SlotsOf(u)[0].direction == Credit; }
    else if t == REVENUE && u == EXPENSE { assert SlotsOf(u)[1].direction == Credit; }
    else if t == REVENUE { assert SlotsOf(u)[0].direction == Credit; }
    else if t == EXPENSE && i == 0 { assert SlotsOf(u)[0].direction == Debit; }
    else if t == EXPENSE && u == REVENUE { assert SlotsOf(u)[1].direction == Debit; }
    else if t == EXPENSE { assert SlotsOf(u)[0].direction == Credit; }
    else if t == TRANSFER && u == EXPENSE { assert SlotsOf(u)[1].direction == Credit; }
    else if t == TRANSFER { assert SlotsOf(u)[1].direction == Debit; }
    else if t == DEBT && i == 0 { assert SlotsOf(u)[0].direction == Debit; }
    else if t == DEBT { assert SlotsOf(u)[1].direction == Debit; }
    else if i == 0 { assert SlotsOf(u)[0].direction == Credit; }
    else { assert SlotsOf(u)[1].direction == Credit; }
  }

  // ---- the value shown in a slot (lines 1126-1166) ----

  /** `$current_accounts`: the account of a debit line and of a credit line,
      keyed by side; a key is absent until a line of that side is seen. */
  type Current = map<Direction, Option<int>>

  function ScanStep(acc: Current, l: Line): Current
  {
    if IsDebit(l) then acc[Debit := l.idAccount]
    else if IsCredit(l) then acc[Credit := l.idAccount]
    else acc
  }

  /** The scan over the lines, which stops as soon as both sides are known. */
  function CurrentAccounts(lines: seq<Line>, acc: Current): Current
    decreases |lines|
  {
    if lines == [] then acc
    else
      var next := ScanStep(acc, lines[0]);
      if Debit in next && Credit in next then next else CurrentAccounts(lines[1..], next)
  }

  /** On a simplified two-line entry (one pure debit line, one pure credit
      line, in either order) the scan finds both lines' accounts. */
  lemma CurrentOfTwoLines(d: Line, c: Line)
    requires d.debit > 0 && d.credit == 0 && c.credit > 0 && c.debit == 0
    ensures CurrentAccounts([d, c], map[]) == map[Debit := d.idAccount, Credit := c.idAccount]
    ensures CurrentAccounts([c, d], map[]) == map[Debit := d.idAccount, Credit := c.idAccount]
  {
    assert [d, c][1..] == [c];
    assert [c, d][1..] == [d];
  }

  /** The side whose value a slot of type `key` copies, given the type the
      transaction has now: its own side when the type is unchanged, else the
      side its `defaults` declare for the current type, else none. */
  function CopiedSide(key: int, slot: Slot, kind: Option<int>): Option<Direction>
  {
    if TypeIs(kind, key) then Some(slot.direction)
    else if kind.Some? && kind.value in slot.defaults then Some(slot.defaults[kind.value])
    else None
  }

  /** `$account->selector_value`: the form's choice for the copied side, else
      the current line of that side, else the default set by setDefaultAccount. */
  function SelectorValue(key: int, slot: Slot, kind: Option<int>, simple: map<(int, Direction), int>,
                         current: Current, preset: map<(int, Direction), int>): (v: Option<int>)
    ensures CopiedSide(key, slot, kind).None? ==>
              v == (if (key, slot.direction) in preset then Some(preset[(key, slot.direction)]) else None)
    ensures forall d | CopiedSide(key, slot, kind) == Some(d) && (key, d) in simple :: v == Some(simple[(key, d)])
    ensures forall d | CopiedSide(key, slot, kind) == Some(d) && (key, d) !in simple && d in current && current[d].Some? ::
              v == current[d]
    ensures forall d | CopiedSide(key, slot, kind) == Some(d) && (key, d) !in simple && !(d in current && current[d].Some?) ::
              v == (if (key, slot.direction) in preset then Some(preset[(key, slot.direction)]) else None)
  {
    var copied :=
      match CopiedSide(key, slot, kind)
      case None => None
      case Some(d) =>
        if (key, d) in simple then Some(simple[(key, d)])
        else if d in current then current[d]
        else None;
    if copied.None? && (key, slot.direction) in preset then Some(preset[(key, slot.direction)]) else copied
  }
}
