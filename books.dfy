/** The database facts the transaction entity looks up: fiscal years, the
    chart of accounts, members, analytic projects and existing transactions.
    The entity never writes any of them, so they are passed in as one value. */
module Books {
  import opened Wrappers

  /** `acc_accounts.position`: only the two income-statement positions are
      ever compared by the transaction entity; every other position is `Other`. */
  datatype Position = Revenue | Expense | Other

  /** `acc_accounts.type`: the special role of an account in its chart. */
  datatype AccountType = Bank | Cash | Outstanding | ThirdParty | Revenue | Expense | Opening | NoType

  datatype Account = Account(code: string, title: string, position: Position, kind: AccountType, chart: int)

  /** A fiscal year: its chart, its inclusive date range (days) and its closed flag. */
  datatype Year = Year(chart: int, start: int, end: int, closed: bool)

  datatype Books = Books(
    years: map<int, Year>,
    accounts: map<int, Account>,
    /** the unique index (id_chart, code) -> account id */
    codes: map<(int, string), int>,
    /** the account `SELECT ... WHERE id_chart = ? AND type = OPENING LIMIT 1` returns, per chart */
    opening: map<int, int>,
    members: set<int>,
    projects: set<int>,
    transactions: set<int>)
  {
    /** The indexes agree with the account table. */
    ghost predicate Valid()
    {
      && (forall k | k in codes ::
            codes[k] in accounts && accounts[codes[k]].chart == k.0 && accounts[codes[k]].code == k.1)
      && (forall c | c in opening ::
            opening[c] in accounts && accounts[opening[c]].chart == c && accounts[opening[c]].kind == AccountType.Opening)
      && (forall id | id in accounts && accounts[id].kind == AccountType.Opening :: accounts[id].chart in opening)
    }

    /** `SELECT id FROM acc_accounts WHERE code = ? AND id_chart = ?` */
    function AccountByCode(chart: int, code: string): (r: Option<int>)
      requires Valid()
      ensures r.Some? ==> r.value in accounts && accounts[r.value].chart == chart && accounts[r.value].code == code
      ensures r.None? <==> (chart, code) !in codes
    {
      if (chart, code) in codes then Some(codes[(chart, code)]) else None
    }

    /** `SELECT id_chart FROM acc_years WHERE id = ?` */
    function ChartOf(idYear: int): Option<int>
    {
      if idYear in years then Some(years[idYear].chart) else None
    }

    /** `test(acc_years, 'id = ? AND closed = 1')` */
    predicate YearClosed(idYear: int)
    {
      idYear in years && years[idYear].closed
    }

    /** `test(acc_years, 'id = ? AND start_date <= ? AND end_date >= ?')` */
    predicate InYear(idYear: int, date: int)
    {
      idYear in years && years[idYear].start <= date <= years[idYear].end
    }

    /** `test(acc_accounts, 'id = ? AND id_chart = ?')` */
    predicate InChart(idAccount: int, chart: int)
    {
      idAccount in accounts && accounts[idAccount].chart == chart
    }
  }
}
