# Paheko accounting transactions in Dafny

This project models the accounting transaction entity of Paheko (formerly
Garradin), `src/include/lib/Garradin/Entities/Accounting/Transaction.php`. A
transaction is a dated, labelled double-entry record. It holds an ordered
list of lines, and each line debits or credits one account by an integer
amount in minor currency units. The entity:

- sorts transactions into six economic types (ADVANCED, REVENUE, EXPENSE,
  TRANSFER, DEBT, CREDIT);
- keeps a status bitmask (WAITING, PAID, DEPOSIT, ERROR);
- checks the double-entry rules before every write (`selfCheck`, `save`);
- builds entries from web and API forms: simplified two-line forms,
  deposits, pay-offs of debts and credits, and opening balances;
- duplicates a transaction into another fiscal year.

Layout, one module per file:

| file | module | content |
|---|---|---|
| wrappers.dfy | `Wrappers` | `Option`, `Result`, `Outcome` |
| books.dfy | `Books` | the database facts the entity looks up: fiscal years, accounts with chart, code, position and type, the (chart, code) index, each chart's opening account, members, projects, existing transactions |
| lines.dfy | `Lines` | the `Line` value, credit and debit totals, balance, and the line-list functions behind `removeLine`, `getCreditLine`, `getDebitLine` and `getProjectId` |
| types.dfy | `Types` | type codes, `getTypeFromAccountType`, the vote of `findTypeFromAccounts`, and PHP's `(int)` cast and loose `==` on the form's type field |
| slots.dfy | `Slots` | the slot table of `getTypesDetails` and the selector values it computes |
| status.dfy | `Status` | the status bits as a 64-bit vector |
| checks.dfy | `Checks` | `selfCheck` as a function returning the first broken rule |
| save.dfy | `Saving` | the guards of `save` and `delete`, and the status changes `save` makes |
| forms.dfy | `Forms` | the lines each import entry point builds, and each entry point as a function of the state it changes |
| transaction.dfy | `Transactions` | the `Transaction` class: fields, the line list, sums, status, validation, save guards, imports, pay-off and duplication |

The source works by changing state step by step, so the model does too.
`Transaction` is a class whose fields are the entity's properties, `_lines`
and `_old_lines`. The methods that change it have `modifies` frames naming
exactly the fields they touch. Each loop of the source is a `while` loop with
invariants. Each method is proved equal to a specification function:
`CreditTotal`, `InferredType`, `CheckTransaction`, `SaveOutcome`,
`FormImport`, and so on. The properties the source promises are proved about
those functions as lemmas.

PHP semantics that matter are written out:

- `?int $type` is `Option<int>`, compared with PHP's loose `==`, so `null == 0`
  holds and an unset type counts as ADVANCED (`TypeIs`).
- Amounts are read for truthiness (`credit != 0`).
- `empty()` treats an id that is null or 0 as empty. It treats a string that
  is null, `""` or `"0"` as empty.
- `trim` strips exactly PHP's six whitespace characters.
- `(int)` on a type string reads its leading digits.
- The status is an unsigned 64-bit vector (`bv64`).

Database queries are inputs: one `Books` value per call. Nothing in the
entity writes to them. The `analytical_set_all` configuration flag is a
boolean parameter `setAll`.

Where the code and its documentation differ, the model follows the code:

- save refuses a validated transaction unless the record of its change says
  that `validated` was 0 before this edit. It does not refuse "unless
  validation is being cleared" (`LockedAgainstEdit`).
- `getProjectId` returns the project of the first line that has one, even
  when the lines carry different projects (`FirstProject`,
  `FirstProjectSkips`). It does not require all lines to share one project.
- `importFromAPI` leaves a type name that is alphabetic but unknown as it
  is. `importFromNewForm` then compares it loosely with 0, which PHP 8 finds
  unequal, so the form is refused for its missing amount when it has none.
  When it has an amount, the `(int)` cast of `importForm` makes the type 0,
  and the transaction silently becomes ADVANCED instead of being rejected
  (`UnknownApiName`, `UnknownApiNameIsAdvanced`).
- `resetLines` replaces the removed-line list by the current lines. It does
  not append to it, so lines removed earlier are forgotten (`ResetLines`).
- `removeLine` compares ids with `===`. Removing an unsaved line (id null)
  therefore drops every unsaved line, and the removed line is recorded once
  per dropped line (`RemoveLine`).
- `save` adds WAITING to a new DEBT or CREDIT before any guard runs. A save
  that is refused still leaves the flag set (`StatusOnSave`).

## Model

| member | source | states |
|---|---|---|
| `Types.TypeFromAccountType` | src/include/lib/Garradin/Entities/Accounting/Transaction.php:80-96 | revenue accounts give REVENUE, expense accounts EXPENSE, third-party accounts DEBT, bank, cash and outstanding accounts TRANSFER, every other type ADVANCED; never CREDIT |
| `Types.InferredTypeCases` | src/include/lib/Garradin/Entities/Accounting/Transaction.php:98-122 | the inferred type is ADVANCED, REVENUE or EXPENSE; it is REVENUE (EXPENSE) exactly when there are two lines, one votes for it and the other casts no vote |
| `Transactions.Transaction.FindTypeFromAccounts` | src/include/lib/Garradin/Entities/Accounting/Transaction.php:98-122 | the loop that collects votes answers `InferredType` of the lines |
| `Transactions.Transaction.constructor` | src/include/lib/Garradin/Entities/Accounting/Transaction.php:51-73 | a new transaction has no id, no type, status 0, no year, creator, related transaction or lines, is not validated and has no preset selectors |
| `Transactions.Transaction.AddLine` | src/include/lib/Garradin/Entities/Accounting/Transaction.php:451-454 | appends the line at the end and changes no other field |
| `Transactions.Transaction.RemoveLine` | src/include/lib/Garradin/Entities/Accounting/Transaction.php:191-205 | keeps the lines whose id differs, in order, and appends the removed line to the removed lines once per dropped line |
| `Lines.WithoutId` | src/include/lib/Garradin/Entities/Accounting/Transaction.php:191-205 | a line is kept exactly when it was there and its id differs from the removed id |
| `Lines.WithoutIdSplits` | src/include/lib/Garradin/Entities/Accounting/Transaction.php:191-205 | every line is either kept or counted as removed |
| `Lines.WithoutIdAppend` | src/include/lib/Garradin/Entities/Accounting/Transaction.php:191-205 | the lines are scanned in order: the kept lines of a concatenation are the kept lines of each part, one after the other |
| `Lines.WithoutAbsentId` | src/include/lib/Garradin/Entities/Accounting/Transaction.php:191-205 | when no line carries the id the list is kept as it is, in its order |
| `Lines.RemoveSavedLineOnce` | src/include/lib/Garradin/Entities/Accounting/Transaction.php:191-205 | with distinct saved ids, removing a present saved line drops exactly one line and records it once |
| `Transactions.Transaction.ResetLines` | src/include/lib/Garradin/Entities/Accounting/Transaction.php:207-211 | the removed lines become the current lines and the line list is emptied |
| `Transactions.Transaction.GetLine` | src/include/lib/Garradin/Entities/Accounting/Transaction.php:213-222 | a line is returned exactly when some line has the id, and it is the first line with that id |
| `Transactions.Transaction.CreditLine` | src/include/lib/Garradin/Entities/Accounting/Transaction.php:224-237 | none for an ADVANCED (or untyped) transaction, else the first credit line |
| `Transactions.Transaction.DebitLine` | src/include/lib/Garradin/Entities/Accounting/Transaction.php:239-252 | none for an ADVANCED (or untyped) transaction, else the first debit line |
| `Lines.FirstCredit` | src/include/lib/Garradin/Entities/Accounting/Transaction.php:228-236 | the result is the first credit line of the list: every line before it is no credit; there is none exactly when no line is a credit |
| `Lines.FirstDebit` | src/include/lib/Garradin/Entities/Accounting/Transaction.php:243-251 | the result is the first debit line of the list: every line before it is no debit; there is none exactly when no line is a debit |
| `Lines.SimpleEntrySides` | src/include/lib/Garradin/Entities/Accounting/Transaction.php:224-252 | in a balanced pair of one-sided lines the credit line and the debit line both exist, differ, and carry the same amount |
| `Transactions.Transaction.LinesCreditSum` | src/include/lib/Garradin/Entities/Accounting/Transaction.php:265-274 | the loop sums the credits |
| `Transactions.Transaction.LinesDebitSum` | src/include/lib/Garradin/Entities/Accounting/Transaction.php:276-285 | the loop sums the debits |
| `Transactions.Transaction.Sum` | src/include/lib/Garradin/Entities/Accounting/Transaction.php:456-466 | the credit total, which equals the debit total of a balanced entry |
| `Lines.CreditTotalAppend` | src/include/lib/Garradin/Entities/Accounting/Transaction.php:265-274 | the credit total of a concatenation is the sum of the totals |
| `Lines.DebitTotalAppend` | src/include/lib/Garradin/Entities/Accounting/Transaction.php:276-285 | the debit total of a concatenation is the sum of the totals |
| `Lines.TotalsOfPair` | src/include/lib/Garradin/Entities/Accounting/Transaction.php:265-285 | the totals of a two-line entry are the sums of its two lines |
| `Lines.BalancedAppend` | src/include/lib/Garradin/Entities/Accounting/Transaction.php:451-454 | appending a balanced group to a balanced entry keeps it balanced |
| `Lines.TotalsOfOneSided` | src/include/lib/Garradin/Entities/Accounting/Transaction.php:612-614 | over lines that pass the amount rules both totals are non-negative, and a non-empty list has a positive sum of totals |
| `Lines.OneSidedMeans` | src/include/lib/Garradin/Entities/Accounting/Transaction.php:612-614 | the amount rules hold exactly of a pure positive credit or a pure positive debit |
| `Transactions.Transaction.ProjectId` | src/include/lib/Garradin/Entities/Accounting/Transaction.php:324-342 | the loop answers the project of the first line that has one |
| `Lines.FirstProject` | src/include/lib/Garradin/Entities/Accounting/Transaction.php:324-342 | the project found is non-zero and carried by a line; there is none exactly when no line has a project |
| `Lines.FirstProjectSkips` | src/include/lib/Garradin/Entities/Accounting/Transaction.php:333-339 | lines without a project before the first one with a project do not change the answer |
| `Lines.SharedProjectFound` | src/include/lib/Garradin/Entities/Accounting/Transaction.php:324-342 | when every line carries the same project, that project is the answer |
| `Status.SetBits` | src/include/lib/Garradin/Entities/Accounting/Transaction.php:549-551 | the given bits are on, every other bit is unchanged |
| `Status.ClearBits` | src/include/lib/Garradin/Entities/Accounting/Transaction.php:545-547 | the given bits are off, every other bit is unchanged |
| `Status.Paid` | src/include/lib/Garradin/Entities/Accounting/Transaction.php:553-556 | WAITING is off, PAID is on, DEPOSIT, ERROR and every other bit unchanged |
| `Status.SetBitsIsDetermined` | src/include/lib/Garradin/Entities/Accounting/Transaction.php:549-551 | the contract of addStatus determines the new status uniquely |
| `Status.ClearBitsIsDetermined` | src/include/lib/Garradin/Entities/Accounting/Transaction.php:545-547 | the contract of removeStatus determines the new status uniquely |
| `Status.ClearUndoesSet` | src/include/lib/Garradin/Entities/Accounting/Transaction.php:545-551 | removing flags just added restores a status that lacked them |
| `Transactions.Transaction.AddStatus` | src/include/lib/Garradin/Entities/Accounting/Transaction.php:549-551 | the status becomes `SetBits` of the old status |
| `Transactions.Transaction.RemoveStatus` | src/include/lib/Garradin/Entities/Accounting/Transaction.php:545-547 | the status becomes `ClearBits` of the old status |
| `Transactions.Transaction.MarkPaid` | src/include/lib/Garradin/Entities/Accounting/Transaction.php:553-556 | the status becomes `Paid` of the old status |
| `Checks.CheckHeader` | src/include/lib/Garradin/Entities/Accounting/Transaction.php:581-595 | passes exactly when the year is set, the label is not blank and has at most 200 characters, reference has at most 200 and notes at most 2000, the date is set, the type is one of the six codes, the creator exists and the date lies in the year |
| `Checks.CheckCount` | src/include/lib/Garradin/Entities/Accounting/Transaction.php:602-604 | passes exactly when there are at least two lines, and exactly two unless the type is ADVANCED |
| `Checks.CheckLine` | src/include/lib/Garradin/Entities/Accounting/Transaction.php:609-615 | passes exactly when the line has an account of the year's chart and a non-negative amount on one side only; a failure names the line number |
| `Checks.LineFaultMeaning` | src/include/lib/Garradin/Entities/Accounting/Transaction.php:612-614 | an amount-less line has both sides at 0, a line reported on both sides has both positive, and either kind of line is rejected |
| `Checks.CheckLinesFromMeaning` | src/include/lib/Garradin/Entities/Accounting/Transaction.php:609-619 | the line loop passes exactly when every line passes, and otherwise reports the number of the first bad line |
| `Checks.CheckRelated` | src/include/lib/Garradin/Entities/Accounting/Transaction.php:626-627 | passes exactly when there is no related id, or it names another existing transaction |
| `Checks.CheckTransactionMeaning` | src/include/lib/Garradin/Entities/Accounting/Transaction.php:577-630 | selfCheck passes exactly when header, count, every line, the balance and the related id are all valid |
| `Checks.PassedIsBalanced` | src/include/lib/Garradin/Entities/Accounting/Transaction.php:597-621 | a transaction that passes is balanced with a positive total, has at least two lines (more only when ADVANCED) and only pure debit or pure credit lines |
| `Checks.ImbalanceIsReported` | src/include/lib/Garradin/Entities/Accounting/Transaction.php:617-621 | an otherwise valid but unbalanced transaction fails with the amount Σcredit − Σdebit |
| `Transactions.Transaction.SelfCheck` | src/include/lib/Garradin/Entities/Accounting/Transaction.php:577-630 | the method, with its running total, answers `CheckTransaction` of the fields and lines |
| `Saving.GuardLine` | src/include/lib/Garradin/Entities/Accounting/Transaction.php:492-506 | passes exactly when the line's account code is known and the account's position does not contradict an EXPENSE or REVENUE type; failures name the line |
| `Saving.GuardLinesFromMeaning` | src/include/lib/Garradin/Entities/Accounting/Transaction.php:492-515 | the guard loop passes exactly when every line's account fits |
| `Saving.SaveOutcomeMeaning` | src/include/lib/Garradin/Entities/Accounting/Transaction.php:477-515 | save gets past its guards exactly when the transaction is not locked, its year not closed, it passes selfCheck and every line's account fits the type |
| `Saving.MismatchedPositionRejected` | src/include/lib/Garradin/Entities/Accounting/Transaction.php:500-506 | an EXPENSE with a revenue-position line, or a REVENUE with an expense-position line, is never saved |
| `Saving.StatusOnSave` | src/include/lib/Garradin/Entities/Accounting/Transaction.php:470-475 | a new DEBT or CREDIT gains WAITING; a stored transaction that passes loses ERROR; PAID and DEPOSIT never change; when neither applies the status is unchanged |
| `Saving.StatusOnSaveKeepsOtherBits` | src/include/lib/Garradin/Entities/Accounting/Transaction.php:470-475 | only WAITING and ERROR can change; WAITING is kept unless it is gained, ERROR is kept unless it is cleared |
| `Transactions.Transaction.Save` | src/include/lib/Garradin/Entities/Accounting/Transaction.php:468-520 | the outcome is `SaveOutcome` of the fields and lines, and the new status is `StatusOnSave` of the old one |
| `Saving.DeleteOutcome` | src/include/lib/Garradin/Entities/Accounting/Transaction.php:558-569 | delete passes exactly when the transaction is not validated and its year is not closed |
| `Saving.ValidatedIsFrozen` | src/include/lib/Garradin/Entities/Accounting/Transaction.php:477-485 | a locked transaction, or one in a closed year, can neither be saved nor deleted |
| `Transactions.Transaction.Delete` | src/include/lib/Garradin/Entities/Accounting/Transaction.php:558-569 | answers `DeleteOutcome`; a refusal is `Locked` or `YearClosed` |
| `Slots.SlotsOf` | src/include/lib/Garradin/Entities/Accounting/Transaction.php:1009-1124 | exactly the five simplified types have two slots, whose directions are opposite, whose targets are non-empty and whose defaults never name their own type |
| `Slots.SlotTargetsClassify` | src/include/lib/Garradin/Entities/Accounting/Transaction.php:1009-1124 | an account a slot accepts is classified by `getTypeFromAccountType` as the slot's own type |
| `Slots.DefaultsPointToMatchingSlot` | src/include/lib/Garradin/Entities/Accounting/Transaction.php:1009-1124 | the side a slot copies from another type is the side of one of that type's slots |
| `Slots.CurrentOfTwoLines` | src/include/lib/Garradin/Entities/Accounting/Transaction.php:1128-1140 | on a two-line entry the scan finds the debit line's account and the credit line's account |
| `Slots.SelectorValue` | src/include/lib/Garradin/Entities/Accounting/Transaction.php:1142-1168 | the form's choice for the copied side wins; without it the account of the current line on that side; without that the preset default of the slot; with no copied side the preset default |
| `Transactions.Transaction.TypeSelectors` | src/include/lib/Garradin/Entities/Accounting/Transaction.php:1126-1168 | the scan that stops at the first debit and credit plus the slot rule give `SelectorValue` for each slot |
| `Transactions.Transaction.SetDefaultAccount` | src/include/lib/Garradin/Entities/Accounting/Transaction.php:995-998 | records the preset account of one slot and leaves the others |
| `Forms.SimpleLines` | src/include/lib/Garradin/Entities/Accounting/Transaction.php:708-731 | the expansion has two lines, one crediting and one debiting the whole amount, with the slots' selectors |
| `Forms.SimpleImportBalanced` | src/include/lib/Garradin/Entities/Accounting/Transaction.php:708-768 | a simplified expansion that imports without error is a balanced pair for the amount |
| `Forms.ResolveLine` | src/include/lib/Garradin/Entities/Accounting/Transaction.php:741-767 | a selector wins, then a code resolved in the year's chart to a non-zero account, then `id_account`; the missing-account error occurs exactly when all three are empty; a code without a year given, or without a chart or match, is refused |
| `Forms.ResolveAllStops` | src/include/lib/Garradin/Entities/Accounting/Transaction.php:741-768 | once a form line fails, the lines after it are not looked at: the result is that of the prefix ending at the failing line |
| `Forms.ResolveAll` | src/include/lib/Garradin/Entities/Accounting/Transaction.php:737-768 | the lines added are the resolved form lines in order with their amounts; a failure is the error of the first form line that fails; when every line resolves the import passes |
| `Forms.FormPlan` | src/include/lib/Garradin/Entities/Accounting/Transaction.php:692-734 | with an amount and a set, non-ADVANCED type the lines are the simplified expansion, otherwise the form's own lines; it fails exactly for a zero amount (NoAmount), a non-simplified type (NotSimplified) or a missing slot account |
| `Forms.KindAfter` | src/include/lib/Garradin/Entities/Accounting/Transaction.php:687-689 | a form type replaces the type and is always a type afterwards; a numeric code, or a text made only of digits, becomes its value; a form type loosely equal to 0 makes it ADVANCED |
| `Forms.DigitTextKinds` | src/include/lib/Garradin/Entities/Accounting/Transaction.php:687-689 | the one-digit texts "0" to "5" a web form sends become the type codes 0 to 5 |
| `Forms.SlotChoices` | src/include/lib/Garradin/Entities/Accounting/Transaction.php:697 | for each slot of the new type: the form's own choice, else the current line's account on the copied side, else the preset default |
| `Forms.SimpleFormBalanced` | src/include/lib/Garradin/Entities/Accounting/Transaction.php:692-768 | a simplified import that succeeds leaves two balanced lines for the amount and moves the previous lines to the removed lines |
| `Forms.AdvancedFormWithoutLinesKeepsLines` | src/include/lib/Garradin/Entities/Accounting/Transaction.php:687-737 | an ADVANCED form without lines changes only the type |
| `Transactions.Transaction.ReplaceLines` | src/include/lib/Garradin/Entities/Accounting/Transaction.php:737-768 | the current lines become the removed lines, and the added lines and outcome are `ResolveAll` of the form lines |
| `Transactions.Transaction.PlanLines` | src/include/lib/Garradin/Entities/Accounting/Transaction.php:692-734 | answers `FormPlan` of the form, the current type, the current lines and the preset selectors |
| `Transactions.Transaction.ImportForm` | src/include/lib/Garradin/Entities/Accounting/Transaction.php:665-772 | the new type, lines, removed lines and outcome are `FormImport` of the old ones |
| `Transactions.Transaction.ImportFromNewForm` | src/include/lib/Garradin/Entities/Accounting/Transaction.php:774-793 | answers `NewFormImport`: any type but ADVANCED without an amount is refused before anything changes |
| `Types.ApiTypeField` | src/include/lib/Garradin/Entities/Accounting/Transaction.php:795-806 | a changed field was an alphabetic name of a type, now its code; every such name is changed |
| `Types.ApiNameRoundTrip` | src/include/lib/Garradin/Entities/Accounting/Transaction.php:799-801 | each type name, in upper and in lower case, maps to its own code |
| `Types.UnknownApiNameIsAdvanced` | src/include/lib/Garradin/Entities/Accounting/Transaction.php:687-689 | an alphabetic name that names no type casts to ADVANCED |
| `Forms.UnknownApiName` | src/include/lib/Garradin/Entities/Accounting/Transaction.php:786-806 | an unknown alphabetic type name without an amount is refused for the missing amount; with an amount it makes the transaction ADVANCED |
| `Forms.ApiNamesMatchCodes` | src/include/lib/Garradin/Entities/Accounting/Transaction.php:795-806 | importing through the API with a type name is the same as importing the new form with its code |
| `Transactions.Transaction.ImportFromAPI` | src/include/lib/Garradin/Entities/Accounting/Transaction.php:795-806 | answers `ApiImport` of the old state |
| `Forms.DepositLine` | src/include/lib/Garradin/Entities/Accounting/Transaction.php:650-658 | the bank line debits the deposit account for the whole amount |
| `Forms.DepositAddsBankLine` | src/include/lib/Garradin/Entities/Accounting/Transaction.php:632-663 | a deposit without lines of its own makes the transaction ADVANCED and appends the bank line after the existing lines |
| `Transactions.Transaction.ImportFromDepositForm` | src/include/lib/Garradin/Entities/Accounting/Transaction.php:632-663 | answers `DepositImport` of the old state |
| `Forms.ThirdPartyIndex` | src/include/lib/Garradin/Entities/Accounting/Transaction.php:829-838 | the first line of the related entry that is not its debt (credit) side, with every line before it skipped |
| `Forms.PayoffEntry` | src/include/lib/Garradin/Entities/Accounting/Transaction.php:851-864 | two lines, the third-party account and the settlement selector, with the amount on opposite sides |
| `Forms.PayoffLines` | src/include/lib/Garradin/Entities/Accounting/Transaction.php:818-864 | a missing or zero amount is NoAmount, a missing settlement account NoSettlementAccount; otherwise it succeeds exactly when the related entry has a third-party account, giving a pair crediting and debiting the amount, first on that account |
| `Forms.PayoffReverses` | src/include/lib/Garradin/Entities/Accounting/Transaction.php:825-864 | the pay-off debits the account a DEBT credited, and credits the account a CREDIT debited |
| `Forms.PayoffBalanced` | src/include/lib/Garradin/Entities/Accounting/Transaction.php:808-867 | a pay-off imported into an ADVANCED transaction is a balanced pair for the amount on the third-party account |
| `Transactions.Transaction.ImportFromPayoffForm` | src/include/lib/Garradin/Entities/Accounting/Transaction.php:808-867 | answers `PayoffImport` of the old state and the related transaction |
| `Forms.BalancingLine` | src/include/lib/Garradin/Entities/Accounting/Transaction.php:882-906 | no line exactly when the lines balance; otherwise a one-sided line on the given account after which they balance |
| `Forms.BalanceFormBalanced` | src/include/lib/Garradin/Entities/Accounting/Transaction.php:869-907 | an opening balance that succeeds is balanced; balanced imported lines are kept as they are, otherwise exactly one one-sided line on the chart's opening account is appended |
| `Forms.BalanceFormFailures` | src/include/lib/Garradin/Entities/Accounting/Transaction.php:869-902 | a refused form import refuses the opening balance unchanged; unbalanced lines in a chart without an opening account are refused with NoOpeningAccount |
| `Transactions.Transaction.ImportFromBalanceForm` | src/include/lib/Garradin/Entities/Accounting/Transaction.php:869-907 | sets label, start date and year, and answers `BalanceImport` of the old state |
| `Transactions.Transaction.BalanceLines` | src/include/lib/Garradin/Entities/Accounting/Transaction.php:882-906 | the lines and outcome are `BalanceTail` of the old lines: kept when balanced, else a balancing line on the opening account or NoOpeningAccount |
| `Transactions.PayoffTitleInjective` | src/include/lib/Garradin/Entities/Accounting/Transaction.php:1183 | the pay-off label determines the related label and whether a debt or a credit is settled |
| `Transactions.Transaction.PayOffFrom` | src/include/lib/Garradin/Entities/Accounting/Transaction.php:1175-1195 | links the found transaction, names and types the pay-off, and returns its id, credit total, first project and type |
| `Forms.DuplicateRow` | src/include/lib/Garradin/Entities/Accounting/Transaction.php:366-389 | a line is copied exactly when its account exists; the copy keeps amounts, label and reference, takes the account with the same code in the target chart and keeps the project only if it still exists |
| `Forms.DuplicateLines` | src/include/lib/Garradin/Entities/Accounting/Transaction.php:366-389 | every account of the copy belongs to the target chart |
| `Forms.DuplicateLinesAppend` | src/include/lib/Garradin/Entities/Accounting/Transaction.php:366-389 | lines are copied one by one in order: the copy of a concatenation is the concatenation of the copies |
| `Forms.DuplicateKeepsAmounts` | src/include/lib/Garradin/Entities/Accounting/Transaction.php:366-389 | when every account still exists, the copy has as many lines and the same totals |
| `Forms.DuplicateDate` | src/include/lib/Garradin/Entities/Accounting/Transaction.php:391-394 | the date is kept exactly when it lies in the target year |
| `Forms.UnmappedLineFailsCheck` | src/include/lib/Garradin/Entities/Accounting/Transaction.php:382-385 | a copied line left without an account makes selfCheck fail |
| `Transactions.Transaction.Duplicate` | src/include/lib/Garradin/Entities/Accounting/Transaction.php:356-401 | a fresh transaction with the same type, label, notes and reference, status 0, no year, creator or related transaction, the copied lines and the date kept only inside the year |
| `Books.Books.AccountByCode` | src/include/lib/Garradin/Entities/Accounting/Transaction.php:758 | the account found has that code in that chart; none exactly when the index has no such pair |

## Left out

- Persistence: `parent::save`, `parent::delete`, the transaction around them,
  the writes of lines and the deletion of removed lines. `getLines` loading
  lines from the database on first use is also left out: `lines` holds the
  loaded list. `getLinesWithAccounts` is reduced to the account facts it
  yields (code, position), read from `Books`.
- Attachments (`Files::delete`, `listFiles`, `getAttachementsDirectory`),
  linked users (`linkToUser`, `updateLinkedUsers`, `checkLinkedUsersChange`,
  `listLinkedUsers*`, `unlinkServiceUser`) and `listRelatedTransactions` are
  file and SQL operations with no logic to prove.
- The commented-out hash chain (`getHash`, `checkHash`) is dead code.
- `$_POST` defaulting, `Utils::array_transpose`, `Utils::moneyToInteger`
  (form amounts arrive as integers) and `getFormLines` are text conversion,
  left out. So are `money_format`, date formatting, `url`, `diff`,
  `asDetailsArray`, `asJournalArray` and `getTypeName`, which are
  presentation.
- `Line::importForm` and `Line::selfCheck` (Line.php) are not part of this
  model. Form lines become `Line` values directly, and the per-line
  `selfCheck` that `save` runs is not modelled.
- `parent::importForm` (the generic field import of the base entity) and
  `parent::selfCheck` are not part of this model. An import changes only the
  type and the two line lists. The `id_related` clean-up of `importForm`
  belongs to that generic import.
- `countLines`, `getFirstLine`, `payment_reference`, `hasReconciledLines`,
  `related` and `year` are one-line accessors.
- Integers are unbounded: PHP's overflow of 64-bit amounts to floating point
  (in sums and in `credit * debit`) is not modelled.
- `strlen` counts bytes and the model counts characters, so labels with
  multi-byte characters are measured differently.
- `Forms.FormPlan`: a simplified type code outside 1..5 makes PHP read a
  missing table entry with warnings. The model reports `NotSimplified`.
- `Slots.SelectorValue`: a selector is an account id (`Option<int>`), not
  PHP's one-entry array. A current line without an account therefore
  yields no selector instead of an array with an empty key.
- `Transactions.Transaction.Duplicate`: copies the lines held in memory. The
  source reads the stored lines of the transaction again from the database.
- `Transactions.Transaction.PayOffFrom`: the lookup by id is a parameter
  (`null` when nothing is found).
- `Forms.ResolveLine`: the year's chart is looked up for each line. The source
  caches it across lines, with the same result.
- A type field holding a numeric string with a sign, leading or trailing
  whitespace, a decimal part (`"0.0"`) or an exponent is not modelled:
  `(int)` and loose `==` read only plain digits. PHP 8 finds `"0.0"` and
  `"0 "` loosely equal to 0, the model does not.
- `Transactions.Transaction.constructor`: the typed `label`, `date` and
  `id_year` properties start uninitialised in PHP, and reading them throws.
  The model starts them as `""` and `None`.
